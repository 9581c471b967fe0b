/** The employee store: a list of employee records and the three reducers that
    change it (add, update by CPF, delete by CPF). Add and update fill in the
    two derived fields, base salary and withholding, from the record's inputs.
    CPFs are not required to be unique: the seed list repeats several. */
module EmployeesSlice {
  import Irrf
  import Seqs

  datatype Option<T> = None | Some(value: T)

  /** An employee record. The derived fields are optional in the record type;
      the store always fills them in on add and update. */
  datatype Employee = Employee(
    name: string,
    cpf: string,
    grossSalary: real,
    pensionDiscount: real,
    dependents: int,
    baseSalary: Option<real>,
    irrfDiscount: Option<real>)

  /** The derived fields agree with the record's inputs. */
  predicate HasDerivedFields(e: Employee)
  {
    e.baseSalary == Some(Irrf.BaseSalary(e.grossSalary, e.pensionDiscount, e.dependents)) &&
    e.irrfDiscount == Some(Irrf.Tax(e.baseSalary.value))
  }

  predicate AllHaveDerivedFields(list: seq<Employee>)
  {
    forall i :: 0 <= i < |list| ==> HasDerivedFields(list[i])
  }

  /** Same name, CPF, salary, deduction and dependents. */
  predicate SameInputs(a: Employee, b: Employee)
  {
    a.name == b.name && a.cpf == b.cpf && a.grossSalary == b.grossSalary &&
    a.pensionDiscount == b.pensionDiscount && a.dependents == b.dependents
  }

  /** The record with its derived fields recomputed, whatever they held before. */
  function WithDerivedFields(e: Employee): (r: Employee)
    ensures SameInputs(r, e) && HasDerivedFields(r)
    ensures r.irrfDiscount.value >= 0.0
  {
    var base := Irrf.BaseSalary(e.grossSalary, e.pensionDiscount, e.dependents);
    e.(baseSalary := Some(base), irrfDiscount := Some(Irrf.Tax(base)))
  }

  // ---------------------------------------------------------------------
  // Seed data

  function Seed(name: string, cpf: string, grossSalary: real, pensionDiscount: real, dependents: int): Employee
  {
    Employee(name, cpf, grossSalary, pensionDiscount, dependents, None, None)
  }

  /** The demonstration records the store starts with, before derivation. */
  const SeedEmployees: seq<Employee> := [
    Seed("João Silva", "12345678901", 5000.0, 500.0, 2),
    Seed("Maria Santos", "98765432100", 3000.0, 300.0, 1),
    Seed("Pedro Oliveira", "11122233344", 8000.0, 800.0, 0),
    Seed("Ana Costa", "55566677788", 2500.0, 250.0, 3),
    Seed("Carla Menezes", "77788899900", 2800.0, 280.0, 2),
    Seed("Thiago Rocha", "22233344455", 7000.0, 700.0, 1),
    Seed("Juliana Pires", "66655544433", 3300.0, 330.0, 3),
    Seed("Vitor Cardoso", "88877766655", 4100.0, 410.0, 0),
    Seed("Carla Menezes", "77788899900", 2800.0, 280.0, 2),
    Seed("Thiago Rocha", "22233344455", 7000.0, 700.0, 1),
    Seed("Juliana Pires", "66655544433", 3300.0, 330.0, 3),
    Seed("Vitor Cardoso", "88877766655", 4100.0, 410.0, 0),
    Seed("Carla Menezes", "77788899900", 2800.0, 280.0, 2),
    Seed("Thiago Rocha", "22233344455", 7000.0, 700.0, 1),
    Seed("Juliana Pires", "66655544433", 3300.0, 330.0, 3),
    Seed("Vitor Cardoso", "88877766655", 4100.0, 410.0, 0),
    Seed("Carla Menezes", "77788899900", 2800.0, 280.0, 2),
    Seed("Thiago Rocha", "22233344455", 7000.0, 700.0, 1),
    Seed("Juliana Pires", "66655544433", 3300.0, 330.0, 3),
    Seed("Vitor Cardoso", "88877766655", 4100.0, 410.0, 0)
  ]

  /** The seed records, each with its derived fields computed. */
  function InitialEmployees(): (r: seq<Employee>)
    ensures |r| == |SeedEmployees| == 20
    ensures forall i :: 0 <= i < |r| ==> SameInputs(r[i], SeedEmployees[i])
    ensures AllHaveDerivedFields(r)
  {
    seq(|SeedEmployees|, i requires 0 <= i < |SeedEmployees| => WithDerivedFields(SeedEmployees[i]))
  }

  /** The seed list holds the same CPF more than once, and the first seed
      record's derived fields are those of the worked example. */
  lemma SeedFacts()
    ensures InitialEmployees()[4].cpf == InitialEmployees()[8].cpf == InitialEmployees()[12].cpf
    ensures InitialEmployees()[0].baseSalary == Some(4120.82)
    ensures InitialEmployees()[0].irrfDiscount == Some(264.4145)
  {
    assert InitialEmployees()[0] == WithDerivedFields(SeedEmployees[0]);
  }

  // ---------------------------------------------------------------------
  // Finding a record by CPF

  /** Position of the first record with the given CPF, or -1 when there is none. */
  function FirstIndexOfCpf(list: seq<Employee>, cpf: string): (r: int)
    ensures -1 <= r < |list|
    ensures r == -1 <==> forall j :: 0 <= j < |list| ==> list[j].cpf != cpf
    ensures r >= 0 ==> list[r].cpf == cpf && forall j :: 0 <= j < r ==> list[j].cpf != cpf
  {
    if list == [] then -1
    else if list[0].cpf == cpf then 0
    else
      var k := FirstIndexOfCpf(list[1..], cpf);
      if k == -1 then -1 else k + 1
  }

  /** `findIndex` over the list, comparing CPFs. */
  method FindIndexByCpf(list: seq<Employee>, cpf: string) returns (index: int)
    ensures index == FirstIndexOfCpf(list, cpf)
  {
    var i := 0;
    while i < |list|
      invariant 0 <= i <= |list|
      invariant forall j :: 0 <= j < i ==> list[j].cpf != cpf
    {
      if list[i].cpf == cpf {
        return i;
      }
      i := i + 1;
    }
    return -1;
  }

  // ---------------------------------------------------------------------
  // The reducers' effect on the list

  /** The list after `addEmployee`. */
  function Appended(list: seq<Employee>, payload: Employee): seq<Employee>
  {
    list + [WithDerivedFields(payload)]
  }

  /** The list after `updateEmployee`. */
  function Replaced(list: seq<Employee>, payload: Employee): seq<Employee>
  {
    var index := FirstIndexOfCpf(list, payload.cpf);
    if index == -1 then list else list[index := WithDerivedFields(payload)]
  }

  /** The list after `deleteEmployee`. */
  function Removed(list: seq<Employee>, cpf: string): seq<Employee>
  {
    Seqs.Filter(list, (e: Employee) => e.cpf != cpf)
  }

  /** Adding grows the list by one record at the end and touches nothing else;
      the new record's derived fields are recomputed from its inputs. */
  lemma AppendedAtEnd(list: seq<Employee>, payload: Employee)
    ensures |Appended(list, payload)| == |list| + 1
    ensures Appended(list, payload)[..|list|] == list
    ensures SameInputs(Appended(list, payload)[|list|], payload)
    ensures HasDerivedFields(Appended(list, payload)[|list|])
  {
  }

  /** Updating a CPF that no record has changes nothing. */
  lemma ReplacedAbsent(list: seq<Employee>, payload: Employee)
    requires forall j :: 0 <= j < |list| ==> list[j].cpf != payload.cpf
    ensures Replaced(list, payload) == list
  {
  }

  /** Updating a CPF that some record has replaces the first such record only,
      with the payload and freshly derived fields. */
  lemma ReplacedFirstMatch(list: seq<Employee>, payload: Employee, k: int)
    requires 0 <= k < |list| && list[k].cpf == payload.cpf
    ensures |Replaced(list, payload)| == |list|
    ensures exists i :: (0 <= i <= k && list[i].cpf == payload.cpf &&
      (forall j :: 0 <= j < i ==> list[j].cpf != payload.cpf) &&
      Replaced(list, payload)[i] == WithDerivedFields(payload) &&
      (forall j :: 0 <= j < |list| && j != i ==> Replaced(list, payload)[j] == list[j]))
  {
    var i := FirstIndexOfCpf(list, payload.cpf);
    assert 0 <= i <= k;
  }

  /** Deleting removes every record with the CPF and keeps every other record,
      as often as it occurred and in its original order. */
  lemma RemovedExactly(list: seq<Employee>, cpf: string)
    ensures forall i :: 0 <= i < |Removed(list, cpf)| ==> Removed(list, cpf)[i].cpf != cpf
    ensures Seqs.IsSubsequence(Removed(list, cpf), list)
    ensures forall e: Employee :: e.cpf != cpf ==> multiset(Removed(list, cpf))[e] == multiset(list)[e]
  {
    Seqs.FilterIsSubsequence(list, (e: Employee) => e.cpf != cpf);
    forall e: Employee | e.cpf != cpf
      ensures multiset(Removed(list, cpf))[e] == multiset(list)[e]
    {
      Seqs.FilterCount(list, (e: Employee) => e.cpf != cpf, e);
    }
  }

  /** Deleting a CPF that no record has changes nothing. */
  lemma RemovedAbsent(list: seq<Employee>, cpf: string)
    requires forall j :: 0 <= j < |list| ==> list[j].cpf != cpf
    ensures Removed(list, cpf) == list
  {
    Seqs.FilterAllPass(list, (e: Employee) => e.cpf != cpf);
  }

  /** Adding and updating keep every record's derived fields in agreement
      with its inputs. */
  lemma AppendedReplacedKeepDerivedFields(list: seq<Employee>, payload: Employee)
    requires AllHaveDerivedFields(list)
    ensures AllHaveDerivedFields(Appended(list, payload))
    ensures AllHaveDerivedFields(Replaced(list, payload))
  {
  }

  /** Deleting keeps only records of the list, so it keeps the agreement too. */
  lemma RemovedKeepsDerivedFields(list: seq<Employee>, cpf: string)
    requires AllHaveDerivedFields(list)
    ensures AllHaveDerivedFields(Removed(list, cpf))
  {
    var kept := Removed(list, cpf);
    forall i | 0 <= i < |kept| ensures HasDerivedFields(kept[i]) {
      Seqs.FilterMembership(list, (e: Employee) => e.cpf != cpf, kept[i]);
    }
  }

  /** Updating a repeated CPF in the seed list replaces its first record and
      leaves the later copies as they were. */
  lemma UpdateRepeatedSeedCpf(payload: Employee)
    requires payload.cpf == "77788899900"
    ensures Replaced(InitialEmployees(), payload)[4] == WithDerivedFields(payload)
    ensures Replaced(InitialEmployees(), payload)[8] == InitialEmployees()[8]
  {
    var list := InitialEmployees();
    assert list[4].cpf == payload.cpf;
    assert forall j :: 0 <= j < 4 ==> list[j].cpf != payload.cpf;
  }

  // ---------------------------------------------------------------------
  // The store

  /** The store's state: the employee list the reducers rewrite in place. */
  class EmployeesState {
    var list: seq<Employee>

    /** The initial state: the seed records with derived fields. */
    constructor ()
      ensures list == InitialEmployees()
      ensures AllHaveDerivedFields(list)
    {
      list := InitialEmployees();
    }

    /** A state preloaded with any list, derived fields as given. */
    constructor Preloaded(initial: seq<Employee>)
      ensures list == initial
    {
      list := initial;
    }

    /** `addEmployee`: push the payload with its derived fields computed. */
    method AddEmployee(payload: Employee)
      modifies this
      ensures list == Appended(old(list), payload)
      ensures old(AllHaveDerivedFields(list)) ==> AllHaveDerivedFields(list)
    {
      var base := Irrf.BaseSalary(payload.grossSalary, payload.pensionDiscount, payload.dependents);
      var irrfDiscount := Irrf.Tax(base);
      list := list + [payload.(baseSalary := Some(base), irrfDiscount := Some(irrfDiscount))];
      if old(AllHaveDerivedFields(list)) { AppendedReplacedKeepDerivedFields(old(list), payload); }
    }

    /** `updateEmployee`: find the first record with the payload's CPF and,
        if there is one, overwrite it with the payload and derived fields. */
    method UpdateEmployee(payload: Employee)
      modifies this
      ensures list == Replaced(old(list), payload)
      ensures old(AllHaveDerivedFields(list)) ==> AllHaveDerivedFields(list)
    {
      var index := FindIndexByCpf(list, payload.cpf);
      if index != -1 {
        var base := Irrf.BaseSalary(payload.grossSalary, payload.pensionDiscount, payload.dependents);
        var irrfDiscount := Irrf.Tax(base);
        list := list[index := payload.(baseSalary := Some(base), irrfDiscount := Some(irrfDiscount))];
      }
      if old(AllHaveDerivedFields(list)) { AppendedReplacedKeepDerivedFields(old(list), payload); }
    }

    /** `deleteEmployee`: keep only the records whose CPF differs. */
    method DeleteEmployee(cpf: string)
      modifies this
      ensures list == Removed(old(list), cpf)
      ensures old(AllHaveDerivedFields(list)) ==> AllHaveDerivedFields(list)
    {
      list := Removed(list, cpf);
      if old(AllHaveDerivedFields(list)) { RemovedKeepsDerivedFields(old(list), cpf); }
    }
  }
}
