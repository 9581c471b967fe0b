/** The employee list screen's logic: the name/CPF filter over the store's
    list, and the selection that drives editing and deleting a record. */
module EmployeeList {
  import Seqs
  import Format
  import opened EmployeesSlice

  // ---------------------------------------------------------------------
  // Filtering

  /** Lower-casing, for ASCII letters only. */
  function LowerChar(c: char): char
  {
    if 'A' <= c <= 'Z' then (c as int + 32) as char else c
  }

  function Lower(s: string): (r: string)
    ensures |r| == |s|
    ensures forall i :: 0 <= i < |s| ==> r[i] == LowerChar(s[i])
  {
    if s == [] then [] else [LowerChar(s[0])] + Lower(s[1..])
  }

  /** `text.includes(part)`: `part` occurs in `text` at some position. */
  predicate Contains(text: string, part: string)
  {
    part <= text || (text != [] && Contains(text[1..], part))
  }

  /** An occurrence of `part` at position `i` makes `Contains` hold. */
  lemma {:induction false} ContainsFrom(text: string, part: string, i: int)
    requires 0 <= i <= |text| && part <= text[i..]
    ensures Contains(text, part)
    decreases i
  {
    if i == 0 {
      assert text[i..] == text;
    } else {
      assert text[1..][i - 1..] == text[i..];
      ContainsFrom(text[1..], part, i - 1);
    }
  }

  /** When `Contains` holds, `part` occurs at some position of `text`. */
  lemma {:induction false} ContainsWitness(text: string, part: string) returns (i: int)
    requires Contains(text, part)
    ensures 0 <= i <= |text| && part <= text[i..]
    decreases |text|
  {
    if part <= text {
      i := 0;
      assert text[i..] == text;
    } else {
      var k := ContainsWitness(text[1..], part);
      i := k + 1;
      assert text[1..][k..] == text[i..];
    }
  }

  /** `Contains` holds exactly when some suffix of `text` starts with `part`. */
  lemma ContainsAt(text: string, part: string)
    ensures Contains(text, part) <==> exists i :: 0 <= i <= |text| && part <= text[i..]
  {
    if Contains(text, part) {
      var i := ContainsWitness(text, part);
    }
    if exists i :: 0 <= i <= |text| && part <= text[i..] {
      var i :| 0 <= i <= |text| && part <= text[i..];
      ContainsFrom(text, part, i);
    }
  }

  /** An employee passes the filters when the lower-cased name contains the
      lower-cased name filter and the CPF contains the digits of the CPF filter. */
  predicate Matches(e: Employee, filterName: string, filterCpf: string)
  {
    Contains(Lower(e.name), Lower(filterName)) && Contains(e.cpf, Format.UnformatCpf(filterCpf))
  }

  /** The filtered list shown on screen. */
  function FilteredEmployees(list: seq<Employee>, filterName: string, filterCpf: string): (r: seq<Employee>)
    ensures |r| <= |list|
    ensures forall i :: 0 <= i < |r| ==> Matches(r[i], filterName, filterCpf)
  {
    Seqs.Filter(list, (e: Employee) => Matches(e, filterName, filterCpf))
  }

  /** Every matching record is kept as often as it occurs in the list, so
      repeated records all stay visible; no other record is kept. */
  lemma FilteredKeepsCopies(list: seq<Employee>, filterName: string, filterCpf: string)
    ensures forall e: Employee :: (multiset(FilteredEmployees(list, filterName, filterCpf))[e] ==
      if Matches(e, filterName, filterCpf) then multiset(list)[e] else 0)
  {
    forall e: Employee
      ensures multiset(FilteredEmployees(list, filterName, filterCpf))[e] ==
        if Matches(e, filterName, filterCpf) then multiset(list)[e] else 0
    {
      Seqs.FilterCount(list, (x: Employee) => Matches(x, filterName, filterCpf), e);
    }
  }

  /** With both filters empty every employee is shown. */
  lemma NoFiltersShowAll(list: seq<Employee>)
    ensures FilteredEmployees(list, "", "") == list
  {
    Seqs.FilterAllPass(list, (e: Employee) => Matches(e, "", ""));
  }

  /** The filtered list keeps the store's order. */
  lemma FilteredInOrder(list: seq<Employee>, filterName: string, filterCpf: string)
    ensures Seqs.IsSubsequence(FilteredEmployees(list, filterName, filterCpf), list)
  {
    Seqs.FilterIsSubsequence(list, (e: Employee) => Matches(e, filterName, filterCpf));
  }

  /** An employee is shown exactly when it is in the list and matches both filters. */
  lemma FilteredMembership(list: seq<Employee>, filterName: string, filterCpf: string, e: Employee)
    ensures e in FilteredEmployees(list, filterName, filterCpf) <==>
      e in list &&
      Contains(Lower(e.name), Lower(filterName)) &&
      Contains(e.cpf, Format.UnformatCpf(filterCpf))
  {
    Seqs.FilterMembership(list, (e: Employee) => Matches(e, filterName, filterCpf), e);
  }

  /** Setting a second filter can only remove employees from the result. */
  lemma SecondFilterNarrows(list: seq<Employee>, filterName: string, filterCpf: string)
    ensures Seqs.IsSubsequence(FilteredEmployees(list, filterName, filterCpf), FilteredEmployees(list, filterName, ""))
    ensures Seqs.IsSubsequence(FilteredEmployees(list, filterName, filterCpf), FilteredEmployees(list, "", filterCpf))
  {
    Seqs.FilterStronger(list,
      (e: Employee) => Matches(e, filterName, ""),
      (e: Employee) => Matches(e, filterName, filterCpf));
    Seqs.FilterStronger(list,
      (e: Employee) => Matches(e, "", filterCpf),
      (e: Employee) => Matches(e, filterName, filterCpf));
  }

  /** Two CPF filters with the same digits show the same employees. */
  lemma SameCpfDigitsSameResult(list: seq<Employee>, filterName: string, a: string, b: string)
    requires Format.UnformatCpf(a) == Format.UnformatCpf(b)
    ensures FilteredEmployees(list, filterName, a) == FilteredEmployees(list, filterName, b)
  {
    Seqs.FilterAgree(list,
      (e: Employee) => Matches(e, filterName, a),
      (e: Employee) => Matches(e, filterName, b));
  }

  /** Punctuation in the CPF filter makes no difference to the result. */
  lemma CpfFilterIgnoresPunctuation(list: seq<Employee>, filterName: string, filterCpf: string)
    ensures FilteredEmployees(list, filterName, Format.UnformatCpf(filterCpf)) == FilteredEmployees(list, filterName, filterCpf)
    ensures FilteredEmployees(list, filterName, Format.FormatCpf(filterCpf)) == FilteredEmployees(list, filterName, filterCpf)
  {
    Format.UnformatCpfIdempotent(filterCpf);
    SameCpfDigitsSameResult(list, filterName, Format.UnformatCpf(filterCpf), filterCpf);
    Format.UnformatFormatCpf(filterCpf);
    SameCpfDigitsSameResult(list, filterName, Format.FormatCpf(filterCpf), filterCpf);
  }

  // ---------------------------------------------------------------------
  // Edit submission

  /** A money field of the edit form: display text or an amount. */
  datatype MoneyInput = Text(text: string) | Amount(amount: real)

  /** What the edit form hands to the list on submit. */
  datatype EditSubmission = EditSubmission(
    name: string,
    cpf: string,
    grossSalary: MoneyInput,
    pensionDiscount: MoneyInput,
    dependents: int)

  /** Text is parsed as currency; an amount is taken as it is. */
  function AmountOf(m: MoneyInput): real
  {
    match m
    case Text(text) => Format.ParseCurrency(text)
    case Amount(amount) => amount
  }

  /** The update sent for an edit: the submitted fields, money parsed, and
      the CPF of the record being edited in place of the submitted one. */
  function EditPayload(data: EditSubmission, selectedCpf: string): Employee
  {
    Employee(data.name, selectedCpf, AmountOf(data.grossSalary), AmountOf(data.pensionDiscount),
      data.dependents, None, None)
  }

  /** The submitted CPF is ignored, text money is parsed to a non-negative
      amount, and the store recomputes the derived fields of the payload. */
  lemma EditPayloadFields(data: EditSubmission, selectedCpf: string)
    ensures EditPayload(data, selectedCpf).cpf == selectedCpf
    ensures SameInputs(EditPayload(data, selectedCpf), EditPayload(data.(cpf := selectedCpf), selectedCpf))
    ensures data.grossSalary.Text? ==>
      EditPayload(data, selectedCpf).grossSalary == Format.ParseCurrency(data.grossSalary.text) >= 0.0
    ensures data.pensionDiscount.Text? ==>
      EditPayload(data, selectedCpf).pensionDiscount == Format.ParseCurrency(data.pensionDiscount.text) >= 0.0
  {
  }

  // ---------------------------------------------------------------------
  // The screen's state

  /** The list screen: filters, the selected record and the store it edits. */
  class EmployeeListState {
    const store: EmployeesState
    var filterName: string
    var filterCpf: string
    var filterSidebarOpen: bool
    var selected: Option<Employee>

    constructor (store: EmployeesState)
      ensures this.store == store
      ensures filterName == "" && filterCpf == "" && !filterSidebarOpen && selected == None
    {
      this.store := store;
      filterName, filterCpf := "", "";
      filterSidebarOpen := false;
      selected := None;
    }

    /** The employees currently shown. */
    function Shown(): seq<Employee>
      reads this, store
    {
      FilteredEmployees(store.list, filterName, filterCpf)
    }

    method SetFilterName(value: string)
      modifies this
      ensures filterName == value
      ensures filterCpf == old(filterCpf) && filterSidebarOpen == old(filterSidebarOpen) && selected == old(selected)
    {
      filterName := value;
    }

    method SetFilterCpf(value: string)
      modifies this
      ensures filterCpf == value
      ensures filterName == old(filterName) && filterSidebarOpen == old(filterSidebarOpen) && selected == old(selected)
    {
      filterCpf := value;
    }

    method SetFilterSidebarOpen(open: bool)
      modifies this
      ensures filterSidebarOpen == open
      ensures filterName == old(filterName) && filterCpf == old(filterCpf) && selected == old(selected)
    {
      filterSidebarOpen := open;
    }

    /** `handleEdit`: select the record to edit; nothing else changes. */
    method HandleEdit(employee: Employee)
      modifies this
      ensures selected == Some(employee)
      ensures filterName == old(filterName) && filterCpf == old(filterCpf) && filterSidebarOpen == old(filterSidebarOpen)
      ensures store.list == old(store.list)
    {
      selected := Some(employee);
    }

    /** `handleDelete`: select the record to delete; nothing else changes. */
    method HandleDelete(employee: Employee)
      modifies this
      ensures selected == Some(employee)
      ensures filterName == old(filterName) && filterCpf == old(filterCpf) && filterSidebarOpen == old(filterSidebarOpen)
      ensures store.list == old(store.list)
    {
      selected := Some(employee);
    }

    /** `handleEditSubmit`: with a selection, update the store under the
        selected record's CPF; with none, leave the store alone. Either way
        the selection is cleared. */
    method HandleEditSubmit(data: EditSubmission)
      modifies this, store
      ensures old(selected).Some? ==>
        store.list == Replaced(old(store.list), EditPayload(data, old(selected).value.cpf))
      ensures old(selected).None? ==> store.list == old(store.list)
      ensures selected == None
      ensures filterName == old(filterName) && filterCpf == old(filterCpf) && filterSidebarOpen == old(filterSidebarOpen)
    {
      if selected.Some? {
        var grossSalary := AmountOf(data.grossSalary);
        var pensionDiscount := AmountOf(data.pensionDiscount);
        store.UpdateEmployee(Employee(data.name, selected.value.cpf, grossSalary, pensionDiscount,
          data.dependents, None, None));
      }
      selected := None;
    }

    /** `handleDeleteConfirm`: with a selection, delete every record with its
        CPF; with none, leave the store alone. Either way the selection is cleared. */
    method HandleDeleteConfirm()
      modifies this, store
      ensures old(selected).Some? ==> store.list == Removed(old(store.list), old(selected).value.cpf)
      ensures old(selected).None? ==> store.list == old(store.list)
      ensures selected == None
      ensures filterName == old(filterName) && filterCpf == old(filterCpf) && filterSidebarOpen == old(filterSidebarOpen)
    {
      if selected.Some? {
        store.DeleteEmployee(selected.value.cpf);
      }
      selected := None;
    }

    /** `handleClearFilters`: both filters back to empty, so every record shows. */
    method HandleClearFilters()
      modifies this
      ensures filterName == "" && filterCpf == ""
      ensures selected == old(selected) && filterSidebarOpen == old(filterSidebarOpen)
      ensures Shown() == store.list
    {
      filterName, filterCpf := "", "";
      NoFiltersShowAll(store.list);
    }
  }
}
