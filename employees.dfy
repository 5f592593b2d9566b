// The staff store: a list of employees changed by push, merge at an index and
// filter-reassignment; the status setters go through the merge.

module Employees {
  import opened Wrappers
  import opened Models
  import Store

  function EmployeeKey(e: Employee): string { e.id }

  /** The update callback `(e) => ({ ...e, ...patch })`. */
  function PatchEmployee(patch: EmployeePatch): Employee -> Employee {
    e => MergeEmployee(e, patch)
  }

  /** The partial record `{ status }`. */
  function StatusPatch(status: EmployeeStatus): (p: EmployeePatch)
    ensures p.id.None? && p.status == Some(status)
  {
    NoEmployeeChange.(status := Some(status))
  }

  /** The employees after `updateEmployee(id, patch)`. */
  function AfterUpdate(staff: seq<Employee>, id: string, patch: EmployeePatch): seq<Employee> {
    Store.Replace(staff, EmployeeKey, id, PatchEmployee(patch))
  }

  class EmployeeService {
    var employees: seq<Employee>

    constructor(initial: seq<Employee>)
      ensures employees == initial
    {
      employees := initial;
    }

    method GetEmployeeById(id: string) returns (employee: Option<Employee>)
      ensures employee == Store.Lookup(employees, EmployeeKey, id)
    {
      employee := Store.Lookup(employees, EmployeeKey, id);
    }

    /** `addEmployee`: the fields supplied, under a fresh id. */
    method AddEmployee(employee: Employee, freshId: string)
      modifies this
      ensures employees == old(employees) + [employee.(id := freshId)]
    {
      employees := employees + [employee.(id := freshId)];
    }

    method UpdateEmployee(id: string, patch: EmployeePatch)
      modifies this
      ensures employees == AfterUpdate(old(employees), id, patch)
    {
      employees := Store.Replace(employees, EmployeeKey, id, PatchEmployee(patch));
    }

    method DeleteEmployee(id: string)
      modifies this
      ensures employees == Store.Remove(old(employees), EmployeeKey, id)
    {
      employees := Store.Remove(employees, EmployeeKey, id);
    }

    method DeactivateEmployee(id: string)
      modifies this
      ensures employees == AfterUpdate(old(employees), id, StatusPatch(EmployeeInactive))
    {
      UpdateEmployee(id, StatusPatch(EmployeeInactive));
    }

    method ActivateEmployee(id: string)
      modifies this
      ensures employees == AfterUpdate(old(employees), id, StatusPatch(EmployeeActive))
    {
      UpdateEmployee(id, StatusPatch(EmployeeActive));
    }
  }

  // ---------------------------------------------------------------- properties

  /**
   * Setting a status changes the status of the first employee with the id and nothing else,
   * and leaves the list as it was when no employee has the id.
   */
  lemma SetStatusEffect(staff: seq<Employee>, id: string, status: EmployeeStatus)
    ensures var r := AfterUpdate(staff, id, StatusPatch(status));
      && |r| == |staff|
      && (match Store.Lookup(staff, EmployeeKey, id)
          case Some(e) =>
            && r[Store.Position(staff, EmployeeKey, id)] == e.(status := status)
            && forall j :: 0 <= j < |staff| && j != Store.Position(staff, EmployeeKey, id) ==> r[j] == staff[j]
          case None => r == staff)
  {
  }

  /** Deactivating or activating twice is the same as doing it once. */
  lemma {:induction false} SetStatusIdempotent(staff: seq<Employee>, id: string, status: EmployeeStatus)
    ensures AfterUpdate(AfterUpdate(staff, id, StatusPatch(status)), id, StatusPatch(status))
         == AfterUpdate(staff, id, StatusPatch(status))
  {
    var f := PatchEmployee(StatusPatch(status));
    forall e ensures EmployeeKey(f(e)) == EmployeeKey(e) && f(f(e)) == f(e) {
      MergeEmployeeLaws(e, StatusPatch(status), StatusPatch(status));
    }
    Store.ReplaceIdempotent(staff, EmployeeKey, id, f);
  }

  /** Deleting removes every employee with the id and keeps all the others, in order. */
  lemma DeleteEffect(staff: seq<Employee>, id: string, other: string)
    requires other != id
    ensures Store.Lookup(Store.Remove(staff, EmployeeKey, id), EmployeeKey, id).None?
    ensures Store.Lookup(Store.Remove(staff, EmployeeKey, id), EmployeeKey, other) == Store.Lookup(staff, EmployeeKey, other)
    ensures forall i, j :: 0 <= i < j <= |staff| && EmployeeKey(staff[i]) != id ==>
      && |Store.Remove(staff[..i], EmployeeKey, id)| < |Store.Remove(staff[..j], EmployeeKey, id)| <= |Store.Remove(staff, EmployeeKey, id)|
      && Store.Remove(staff, EmployeeKey, id)[|Store.Remove(staff[..i], EmployeeKey, id)|] == staff[i]
  {
    forall i, j | 0 <= i < j <= |staff| && EmployeeKey(staff[i]) != id
      ensures && |Store.Remove(staff[..i], EmployeeKey, id)| < |Store.Remove(staff[..j], EmployeeKey, id)| <= |Store.Remove(staff, EmployeeKey, id)|
              && Store.Remove(staff, EmployeeKey, id)[|Store.Remove(staff[..i], EmployeeKey, id)|] == staff[i]
    {
      Store.RemoveOrder(staff, EmployeeKey, id, i, j);
    }
    Store.RemoveKeepsOthers(staff, EmployeeKey, id);
    Store.LookupAfterRemove(staff, EmployeeKey, id, other);
  }
}
