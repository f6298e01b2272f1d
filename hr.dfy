/**
 * Employees and leave requests of erp/modules/hr.py.
 */
module Hr {
  import opened Schema
  import Numbering

  /** The `employee_number` column of the employees. */
  function EmployeeNumbers(employees: seq<Employee>): seq<string> {
    Numbering.NumberColumn(employees, (e: Employee) => e.number)
  }

  /** Where a leave request stands: new ones are pending; approve and reject overwrite
   *  whatever the status was, and nothing sets `cancelled`. */
  predicate ReachableLeaveStatus(s: LeaveStatus) {
    s == Pending || s == Approved || s == Rejected
  }

  /** The HR invariant: employee numbers sequential, both names filled in, and every leave
   *  request on an existing employee. */
  ghost predicate HrValid(employees: seq<Employee>, leaves: seq<LeaveRequest>) {
    && Numbering.Sequential("EMP", EmployeeNumbers(employees))
    && (forall e :: e in employees ==> e.firstName != "" && e.lastName != "")
    && (forall l :: l in leaves ==> ValidId(l.employee, |employees|) && ReachableLeaveStatus(l.status))
  }

  lemma HrAddEmployee(employees: seq<Employee>, leaves: seq<LeaveRequest>, e: Employee)
    requires HrValid(employees, leaves)
    requires e.number == Numbering.Format("EMP", |employees| + 1) && e.firstName != "" && e.lastName != ""
    ensures HrValid(employees + [e], leaves)
  {
  }

  /** Overwriting an employee's other fields while keeping the number and both names
   *  filled in keeps the HR tables valid. */
  lemma HrReplaceEmployee(employees: seq<Employee>, leaves: seq<LeaveRequest>, x: nat, e: Employee)
    requires HrValid(employees, leaves) && x < |employees|
    requires e.number == employees[x].number && e.firstName != "" && e.lastName != ""
    ensures HrValid(employees[x := e], leaves)
  {
    var changed := employees[x := e];
    forall f | f in changed ensures f.firstName != "" && f.lastName != "" {
      var i :| 0 <= i < |changed| && changed[i] == f;
      if i != x {
        assert employees[i] in employees;
      }
    }
  }

  lemma HrAddLeave(employees: seq<Employee>, leaves: seq<LeaveRequest>, l: LeaveRequest)
    requires HrValid(employees, leaves)
    requires ValidId(l.employee, |employees|) && ReachableLeaveStatus(l.status)
    ensures HrValid(employees, leaves + [l])
  {
  }

  lemma HrSetLeave(employees: seq<Employee>, leaves: seq<LeaveRequest>, y: nat, s: LeaveStatus)
    requires HrValid(employees, leaves) && y < |leaves| && ReachableLeaveStatus(s)
    ensures HrValid(employees, leaves[y := leaves[y].(status := s)])
  {
    var changed := leaves[y := leaves[y].(status := s)];
    forall l | l in changed ensures ValidId(l.employee, |employees|) && ReachableLeaveStatus(l.status) {
      var i :| 0 <= i < |changed| && changed[i] == l;
      assert leaves[i] in leaves;
    }
  }

  /** `UPDATE employees SET active = 0 WHERE id = ?`: an unknown id matches no row. */
  function Deactivated(employees: seq<Employee>, id: int): (r: seq<Employee>)
    ensures |r| == |employees|
    ensures forall k :: 0 <= k < |r| ==> r[k] == if k + 1 == id then employees[k].(active := false) else employees[k]
  {
    if ValidId(id, |employees|) then employees[id - 1 := employees[id - 1].(active := false)] else employees
  }

  /** Deactivating twice is deactivating once. */
  lemma DeactivateIdempotent(employees: seq<Employee>, id: int)
    ensures Deactivated(Deactivated(employees, id), id) == Deactivated(employees, id)
  {
  }
}
