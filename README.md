# IRRF-Manager core, modelled in Dafny

IRRF-Manager is a small payroll screen. It keeps a list of employees and, for
each one, computes the taxable base salary and the Brazilian monthly
income-tax withholding (IRRF). This project models the logic underneath the
screen and proves what that logic promises:

- `irrf.dfy` (module `Irrf`): the base salary (gross minus pension deduction
  minus 189.59 per dependent) and the five-bracket withholding table. Amounts
  are exact `real`s. It also holds a table-driven reference definition of the
  withholding, proved equal to the if-chain.
- `format.dfy` (module `Format`): the CPF helpers and the currency-string
  helpers. The CPF helpers strip to digits, punctuate as `ddd.ddd.ddd-dd` and
  check for 11 digits. The currency helpers strip to digits and read the
  digits as a count of cents. All are functions over `seq<char>`.
- `employees_slice.dfy` (module `EmployeesSlice`): the employee record, the
  seed list, and the store. The store is a class whose `list` field the add,
  update-by-CPF and delete-by-CPF reducers rewrite. Each reducer is specified
  by a function of the old list (`Appended`, `Replaced`, `Removed`), and the
  properties are proved about those functions.
- `employee_form_schema.dfy` (module `EmployeeFormSchema`): the form's field
  rules. The model lists every failed check with its message and proves an
  exact acceptance condition for each field.
- `employee_list.dfy` (module `EmployeeList`): the name/CPF filter of the list
  screen. A class models the screen's state: the two filters, the sidebar
  flag and the selected employee. Its handlers select a record, submit an
  edit, confirm a delete and clear the filters, dispatching to the store.
- `seqs.dfy` (module `Seqs`): a generic order-preserving `Filter` and the
  subsequence relation, with the lemmas the other modules use.

CPF uniqueness: a CPF reads like a record key, but the code never enforces
uniqueness, and in the seed list four CPFs occur four times each. The
model follows the code. Update replaces the first record with the CPF. Delete
removes every record with the CPF. No lemma assumes uniqueness.

## Model

| member | source | states |
|---|---|---|
| Irrf.Tax | src/utils/irrf.ts:11-17 | withholding is never negative; it is zero exactly for bases up to 2259.20 (negative bases included); it stays below 27.5% of any positive base; above 4664.68 it is 27.5% of the base minus 896 |
| Irrf.BaseSalary | src/utils/irrf.ts:3-9 | gross minus deduction minus 189.59 per dependent, with no clamping; specified by `BaseSalaryWithoutDependents`, `BaseSalaryPerDependent` and `BaseSalaryExamples` |
| Irrf.BaseSalaryWithoutDependents | src/utils/irrf.ts:3-9 | with no dependents the base is gross minus pension deduction; all-zero inputs give 0 |
| Irrf.BaseSalaryPerDependent | src/utils/irrf.ts:1-9 | each extra dependent lowers the base by exactly 189.59, with no floor, so one dependent on a zero salary gives a negative base |
| Irrf.BaseSalaryExamples | src/utils/irrf.ts:3-9 | worked bases: 5000/500/0 gives 4500, 5000/500/2 gives 4120.82, 10000/1000/5 gives 8052.05 |
| Irrf.BracketLimitsInclusive | src/utils/irrf.ts:12-16 | each bracket limit is taxed by its own bracket's formula and the next cent by the next bracket's formula |
| Irrf.ContinuousAtExemptLimit | src/utils/irrf.ts:12-13 | just above 2259.20 withholding is 7.5% of the excess over 2259.20, so it starts from zero with no jump |
| Irrf.JumpsAtUpperLimits | src/utils/irrf.ts:13-16 | just above 2826.65, 3751.05 and 4664.68 withholding is its value at the limit plus a jump of -0.00125, -0.00125 and +0.004 respectively (under one cent) plus the new rate times the excess |
| Irrf.TaxExamples | src/utils/irrf.ts:11-17 | worked withholdings: 0 and 1000 give 0, 2500 gives 18.06, 3000 gives 68.56, 4000 gives 237.23, 5000 gives 479 |
| Irrf.NotMonotoneBetweenCents | src/utils/irrf.ts:13-15 | just above 2826.65 and 3751.05 the next formula gives less than the limit itself, so withholding is not monotone over all reals |
| Irrf.MonotoneOnCents | src/utils/irrf.ts:11-17 | on whole-cent bases withholding never decreases as the base grows |
| Irrf.TaxMatchesTable | src/utils/irrf.ts:11-17 | the if-chain equals a scan of the bracket table (limit, rate, parcel) for the first bracket whose limit is at least the base |
| Format.StripNonDigits | src/utils/format.ts:8 | the global non-digit replace leaves only digits and never lengthens the text |
| Format.StripKeepsDigits | src/utils/format.ts:8 | stripping keeps every occurrence of every digit |
| Format.StripAllDigits | src/utils/format.ts:8 | a string of digits is left unchanged |
| Format.StripIdempotent | src/utils/format.ts:8 | stripping twice is stripping once |
| Format.StripAppend | src/utils/format.ts:8 | stripping distributes over concatenation |
| Format.StripAlternating | src/utils/format.ts:19 | stripping text that alternates non-digit and digit runs joins the digit runs |
| Format.UnformatCpf | src/utils/format.ts:7-9 | the result is all digits and holds each digit as often as the input does |
| Format.UnformatCpfKeepsOrder | src/utils/format.ts:7-9 | the digits come out in input order (a subsequence of the input) |
| Format.UnformatCpfIdempotent | src/utils/format.ts:7-9 | unformatting is idempotent and leaves digit strings unchanged |
| Format.StripLayout | src/utils/format.ts:4 | a string in `ddd.ddd.ddd-dd` layout strips to its four digit groups, 11 digits |
| Format.PunctuateLayout | src/utils/format.ts:4 | punctuating 11 digits gives the layout, whose groups are those digits |
| Format.LayoutUnique | src/utils/format.ts:4 | two layout strings with the same digit groups are equal |
| Format.FormatCpf | src/utils/format.ts:1-5 | input without exactly 11 digits is returned unchanged; otherwise the result is in 14-character layout and holds the input's digits |
| Format.UnformatFormatCpf | src/utils/format.ts:1-9 | unformatting after formatting gives the input's digits, for every input |
| Format.UnformatFormatCpfRoundTrip | src/utils/format.ts:1-9 | an 11-digit id survives formatting then unformatting |
| Format.FormatCpfIdempotent | src/utils/format.ts:1-5 | formatting a formatted string changes nothing |
| Format.ExampleIsLayout | src/utils/format.ts:4 | "123.456.789-01" is in layout |
| Format.ExampleLayoutDigits | src/utils/format.ts:4 | the groups of "123.456.789-01" are "12345678901" |
| Format.ExamplePunctuate | src/utils/format.ts:4 | punctuating "12345678901" gives "123.456.789-01" |
| Format.UnformatCpfExample | src/utils/format.ts:7-9 | "123.456.789-01" unformats to "12345678901" |
| Format.FormatCpfExample | src/utils/format.ts:1-5 | "12345678901" formats to "123.456.789-01" |
| Format.FormatCpfOfLayout | src/utils/format.ts:1-5 | a string already in `ddd.ddd.ddd-dd` layout formats to itself |
| Format.FormatCpfFormattedExample | src/utils/format.ts:1-5 | a formatted CPF formats to itself |
| Format.FormatCpfShortExample | src/utils/format.ts:3 | a 9-digit input is returned unchanged |
| Format.ValidateCpf | src/utils/format.ts:28-31 | a valid CPF text has at least 11 characters |
| Format.ValidateCpfIffFormats | src/utils/format.ts:28-31 | a CPF is valid exactly when formatting puts it in layout |
| Format.ValidateCpfIgnoresPunctuation | src/utils/format.ts:28-31 | formatting or unformatting does not change validity |
| Format.UnformatCurrency | src/utils/format.ts:18-20 | the result is all digits, is a subsequence of the input (the digits in input order), holds each digit as often as the input does, and unformatting it again changes nothing |
| Format.DigitsValuePositive | src/utils/format.ts:25 | a digit string denotes a positive number exactly when some digit is not 0 |
| Format.ParseCurrency | src/utils/format.ts:22-26 | the result is never negative, is 0 when there are no digits, and is a whole number of cents |
| Format.ParseCurrencyIgnoresNonDigits | src/utils/format.ts:22-26 | parsing the text equals parsing its unformatted digits |
| Format.ParseCurrencyPositive | src/utils/format.ts:22-26 | the parse is positive exactly when the text holds a digit other than 0 |
| Format.DigitChar | src/utils/format.ts:25 | each value below 10 has a digit character denoting it |
| Format.Numeral | src/utils/format.ts:25 | the decimal numeral of a count is a non-empty digit string |
| Format.NumeralValue | src/utils/format.ts:25 | a numeral denotes the count it was written from |
| Format.ParseCurrencyOfCents | src/utils/format.ts:22-26 | any count of cents written in digits parses back to count/100 |
| Format.EmptyCurrencyExample | src/utils/format.ts:22-26 | "" parses to 0 |
| Format.StripCurrencyExample | src/utils/format.ts:18-20 | "R$ 1.000,00" strips to "100000" |
| Format.DigitsValueExample | src/utils/format.ts:25 | "1234" is read as the number 1234 |
| Format.ParseCurrencyExample | src/utils/format.ts:22-26 | "1234" parses to 12.34 |
| Format.Punctuate | src/utils/format.ts:4 | the separators inserted into 11 digits; specified by `PunctuateLayout` (the result is in layout and its groups are the digits) |
| Format.DigitsValue | src/utils/format.ts:25 | the number a digit string denotes; specified by `NumeralValue` (it inverts writing a count in decimal) and `DigitsValuePositive` |
| EmployeesSlice.WithDerivedFields | src/features/employees/employeesSlice.ts:173-180 | the record keeps its inputs, and its base salary and withholding are recomputed from them, overriding what the payload held; the withholding is never negative |
| EmployeesSlice.InitialEmployees | src/features/employees/employeesSlice.ts:10-163 | the initial list has the 20 seed records, in order, each with derived fields consistent with its inputs |
| EmployeesSlice.SeedFacts | src/features/employees/employeesSlice.ts:10-163 | seed records 5, 9 and 13 share one CPF; the first seed record has base 4120.82 and withholding 264.4145 |
| EmployeesSlice.FirstIndexOfCpf | src/features/employees/employeesSlice.ts:183-185 | the result is -1 exactly when no record has the CPF; otherwise it is the first index holding that CPF |
| EmployeesSlice.FindIndexByCpf | src/features/employees/employeesSlice.ts:183-185 | the scan returns the first index with the CPF, or -1 |
| EmployeesSlice.Appended | src/features/employees/employeesSlice.ts:173-181 | the list after `addEmployee`; specified by `AppendedAtEnd` and `AppendedReplacedKeepDerivedFields` |
| EmployeesSlice.Replaced | src/features/employees/employeesSlice.ts:182-195 | the list after `updateEmployee`; specified by `ReplacedAbsent`, `ReplacedFirstMatch` and `AppendedReplacedKeepDerivedFields` |
| EmployeesSlice.Removed | src/features/employees/employeesSlice.ts:196-198 | the list after `deleteEmployee`; specified by `RemovedExactly`, `RemovedAbsent` and `RemovedKeepsDerivedFields` |
| EmployeesSlice.AppendedAtEnd | src/features/employees/employeesSlice.ts:173-181 | adding grows the list by one at the end, leaves earlier records unchanged, and the new record has the payload's inputs with recomputed derived fields |
| EmployeesSlice.ReplacedAbsent | src/features/employees/employeesSlice.ts:182-195 | updating a CPF no record has leaves the list unchanged |
| EmployeesSlice.ReplacedFirstMatch | src/features/employees/employeesSlice.ts:182-195 | updating a present CPF keeps the length and replaces only the first record with that CPF, with the payload plus recomputed derived fields |
| EmployeesSlice.RemovedExactly | src/features/employees/employeesSlice.ts:196-198 | after deleting, no record has the CPF, the rest keep their order, and every other record occurs as often as before |
| EmployeesSlice.RemovedAbsent | src/features/employees/employeesSlice.ts:196-198 | deleting a CPF no record has leaves the list unchanged |
| EmployeesSlice.AppendedReplacedKeepDerivedFields | src/features/employees/employeesSlice.ts:173-195 | add and update keep every record's derived fields consistent with its inputs |
| EmployeesSlice.RemovedKeepsDerivedFields | src/features/employees/employeesSlice.ts:196-198 | delete keeps every record's derived fields consistent with its inputs |
| EmployeesSlice.UpdateRepeatedSeedCpf | src/features/employees/employeesSlice.ts:41-74 | updating a CPF that the seed list repeats replaces its first occurrence and leaves the later copies as they were |
| EmployeesSlice.EmployeesState.constructor | src/features/employees/employeesSlice.ts:165-167 | the store starts with the derived seed list, consistent throughout |
| EmployeesSlice.EmployeesState.Preloaded | src/features/employees/employeesSlice.ts:5-7 | a store built from a given list holds exactly that list |
| EmployeesSlice.EmployeesState.AddEmployee | src/features/employees/employeesSlice.ts:173-181 | the new list is the old list with the derived payload appended, and consistency of derived fields is preserved |
| EmployeesSlice.EmployeesState.UpdateEmployee | src/features/employees/employeesSlice.ts:182-195 | the new list is the old list with the first CPF match replaced, if any, and consistency of derived fields is preserved |
| EmployeesSlice.EmployeesState.DeleteEmployee | src/features/employees/employeesSlice.ts:196-198 | the new list is the old list without the records having the CPF, and consistency of derived fields is preserved |
| EmployeeFormSchema.Utf16Length | src/components/EmployeeFormModal/schemas/employeeFormSchema.ts:5-8 | a string's JavaScript length, in UTF-16 code units, lies between its character count and twice that |
| EmployeeFormSchema.Utf16LengthOfBmp | src/components/EmployeeFormModal/schemas/employeeFormSchema.ts:5-8 | without characters beyond the Basic Multilingual Plane, the JavaScript length is the character count |
| EmployeeFormSchema.Utf16LengthAppend | src/components/EmployeeFormModal/schemas/employeeFormSchema.ts:5-8 | the JavaScript length of a concatenation is the sum of the lengths |
| EmployeeFormSchema.NameIssues | src/components/EmployeeFormModal/schemas/employeeFormSchema.ts:5 | the name's failed check; specified by `NameRule` |
| EmployeeFormSchema.CpfIssues | src/components/EmployeeFormModal/schemas/employeeFormSchema.ts:6-9 | the CPF's failed checks, length first; specified by `CpfRule` |
| EmployeeFormSchema.GrossSalaryIssues | src/components/EmployeeFormModal/schemas/employeeFormSchema.ts:10-16 | the gross salary's failed checks; specified by `GrossSalaryRule` |
| EmployeeFormSchema.PensionDiscountIssues | src/components/EmployeeFormModal/schemas/employeeFormSchema.ts:17-23 | the pension deduction's failed checks; specified by `PensionDiscountRule` |
| EmployeeFormSchema.DependentsIssues | src/components/EmployeeFormModal/schemas/employeeFormSchema.ts:24-27 | the dependents' failed checks; specified by `DependentsRule` |
| EmployeeFormSchema.Issues | src/components/EmployeeFormModal/schemas/employeeFormSchema.ts:4-28 | every failed check, field by field; specified by `ValidIff` and `IssuesExample` |
| EmployeeFormSchema.IsValid | src/components/EmployeeFormModal/schemas/employeeFormSchema.ts:4-28 | no check fails; specified by `ValidIff` |
| EmployeeFormSchema.NameRule | src/components/EmployeeFormModal/schemas/employeeFormSchema.ts:5 | a name is accepted exactly when its JavaScript length (UTF-16 code units) is at least 2 |
| EmployeeFormSchema.AstralNameAccepted | src/components/EmployeeFormModal/schemas/employeeFormSchema.ts:5 | a single character beyond the Basic Multilingual Plane has length 2 and is accepted as a name |
| EmployeeFormSchema.AstralCpfLength | src/components/EmployeeFormModal/schemas/employeeFormSchema.ts:6-9 | ten digits followed by any character beyond the Basic Multilingual Plane pass the length check and fail only the 11-digit check |
| EmployeeFormSchema.MessagesPerField | src/components/EmployeeFormModal/schemas/employeeFormSchema.ts:4-28 | both "required" checks share the message "Campo obrigatório"; within each field the two checks have distinct messages |
| EmployeeFormSchema.CpfRule | src/components/EmployeeFormModal/schemas/employeeFormSchema.ts:6-9 | a CPF is accepted exactly when it holds 11 digits; the length check never fails alone |
| EmployeeFormSchema.GrossSalaryRule | src/components/EmployeeFormModal/schemas/employeeFormSchema.ts:10-16 | a gross salary is accepted exactly when it holds a digit other than 0 |
| EmployeeFormSchema.PensionDiscountRule | src/components/EmployeeFormModal/schemas/employeeFormSchema.ts:17-23 | a pension deduction is accepted exactly when it is non-empty; the non-negative check never fails |
| EmployeeFormSchema.DependentsRule | src/components/EmployeeFormModal/schemas/employeeFormSchema.ts:24-27 | dependents are accepted exactly when they are a whole number, zero or more |
| EmployeeFormSchema.ValidIff | src/components/EmployeeFormModal/schemas/employeeFormSchema.ts:4-28 | the form is valid exactly when the name's JavaScript length is at least 2, the CPF holds 11 digits, the gross salary holds a non-zero digit, the pension deduction is non-empty and dependents are a whole number, zero or more |
| EmployeeFormSchema.ShortNameExample | src/components/EmployeeFormModal/schemas/employeeFormSchema.ts:5 | "A" fails the name check |
| EmployeeFormSchema.ShortCpfExample | src/components/EmployeeFormModal/schemas/employeeFormSchema.ts:6-9 | "123" fails both CPF checks, length first |
| EmployeeFormSchema.IssuesOfFields | src/components/EmployeeFormModal/schemas/employeeFormSchema.ts:4-28 | the form's issues are the fields' issues concatenated in field order |
| EmployeeFormSchema.IssuesWhenEveryCheckFails | src/components/EmployeeFormModal/schemas/employeeFormSchema.ts:4-28 | when every check fails, all eight are reported once each, in field order; a failed length or non-empty check does not stop its field's refinement |
| EmployeeFormSchema.IssuesExample | src/components/EmployeeFormModal/schemas/employeeFormSchema.ts:4-28 | a form failing everything reports each failed check once, in field order, including two per field where both checks fail |
| EmployeeList.Lower | src/components/EmployeeList/useEmployeeList.ts:25-26 | lower-casing keeps the length and maps each character on its own |
| EmployeeList.Contains | src/components/EmployeeList/useEmployeeList.ts:24-27 | `includes`; specified by `ContainsAt`, `ContainsFrom` and `ContainsWitness` |
| EmployeeList.ContainsFrom | src/components/EmployeeList/useEmployeeList.ts:24-27 | an occurrence of the part at any position makes `includes` hold |
| EmployeeList.ContainsWitness | src/components/EmployeeList/useEmployeeList.ts:24-27 | when `includes` holds, the part occurs at some position of the text |
| EmployeeList.ContainsAt | src/components/EmployeeList/useEmployeeList.ts:24-27 | `includes` holds exactly when the part starts some suffix of the text |
| EmployeeList.Matches | src/components/EmployeeList/useEmployeeList.ts:23-29 | the filter's test for one employee; specified by `FilteredMembership` |
| EmployeeList.FilteredEmployees | src/components/EmployeeList/useEmployeeList.ts:22-30 | every shown employee passes both filters and none is added; `FilteredKeepsCopies` (how many copies), `FilteredMembership` and `FilteredInOrder` give the rest |
| EmployeeList.FilteredKeepsCopies | src/components/EmployeeList/useEmployeeList.ts:23-29 | each record that passes both filters is shown as many times as it occurs in the list, copies included; a record that fails is not shown |
| EmployeeList.NoFiltersShowAll | src/components/EmployeeList/useEmployeeList.ts:22-30 | with both filters empty every employee is shown |
| EmployeeList.FilteredInOrder | src/components/EmployeeList/useEmployeeList.ts:23 | the shown list is an order-preserving subsequence of the store's list |
| EmployeeList.FilteredMembership | src/components/EmployeeList/useEmployeeList.ts:24-28 | an employee is shown exactly when it is in the list, its lower-cased name contains the lower-cased name filter, and its CPF contains the filter's digits |
| EmployeeList.SecondFilterNarrows | src/components/EmployeeList/useEmployeeList.ts:24-28 | adding either filter to the other only removes employees, keeping order |
| EmployeeList.SameCpfDigitsSameResult | src/components/EmployeeList/useEmployeeList.ts:27 | two CPF filters with the same digits show the same employees |
| EmployeeList.CpfFilterIgnoresPunctuation | src/components/EmployeeList/useEmployeeList.ts:27 | formatting or unformatting the CPF filter does not change what is shown |
| EmployeeList.AmountOf | src/components/EmployeeList/useEmployeeList.ts:50-57 | text is parsed as currency, an amount is kept; specified by `EditPayloadFields` |
| EmployeeList.EditPayload | src/components/EmployeeList/useEmployeeList.ts:59-65 | the record sent for an edit; specified by `EditPayloadFields` |
| EmployeeList.EditPayloadFields | src/components/EmployeeList/useEmployeeList.ts:50-65 | the update carries the selected record's CPF, not the submitted one, and text money fields are parsed to non-negative amounts |
| EmployeeList.EmployeeListState.constructor | src/components/EmployeeList/useEmployeeList.ts:14-20 | both filters start empty, the sidebar closed and nothing selected |
| EmployeeList.EmployeeListState.Shown | src/components/EmployeeList/useEmployeeList.ts:22-30 | the store's list under the current filters; `HandleClearFilters` states it is the whole list once filters are cleared |
| EmployeeList.EmployeeListState.SetFilterName | src/components/EmployeeList/useEmployeeList.ts:14 | sets the name filter and nothing else |
| EmployeeList.EmployeeListState.SetFilterCpf | src/components/EmployeeList/useEmployeeList.ts:15 | sets the CPF filter and nothing else |
| EmployeeList.EmployeeListState.SetFilterSidebarOpen | src/components/EmployeeList/useEmployeeList.ts:16 | sets the sidebar flag and nothing else |
| EmployeeList.EmployeeListState.HandleEdit | src/components/EmployeeList/useEmployeeList.ts:32-35 | selects the employee; filters, sidebar and store are unchanged |
| EmployeeList.EmployeeListState.HandleDelete | src/components/EmployeeList/useEmployeeList.ts:37-40 | selects the employee; filters, sidebar and store are unchanged |
| EmployeeList.EmployeeListState.HandleEditSubmit | src/components/EmployeeList/useEmployeeList.ts:42-70 | with a selection, the store is updated with the parsed payload under the selected CPF; with none, the store is unchanged; the selection ends empty |
| EmployeeList.EmployeeListState.HandleDeleteConfirm | src/components/EmployeeList/useEmployeeList.ts:72-78 | with a selection, every record with the selected CPF is deleted; with none, the store is unchanged; the selection ends empty |
| EmployeeList.EmployeeListState.HandleClearFilters | src/components/EmployeeList/useEmployeeList.ts:80-83 | both filters become empty, so every stored employee is shown; selection and sidebar are unchanged |

## Left out

- `formatCurrency` (src/utils/format.ts:11-16) is not modelled. It delegates to the `pt-BR` locale rules of `Intl.NumberFormat`, which are not part of this model.
- Floating point: money is an exact `real`. IEEE-754 rounding in the tax and base formulas is not reproduced. Neither is the precision loss of `parseFloat` on digit strings longer than about 15 digits.
- EmployeeList.Lower: lower-cases ASCII letters only. It is weaker than JavaScript's `toLowerCase`, because Unicode case mapping (for example "Ã" to "ã") is not modelled.
- The pension-deduction field name: the record type and the list hook call it `descontoPrevidencia`, while the store, the seed data and the tax computation read `pensionDiscount`. The model uses `pensionDiscount` throughout. So it does not capture that the edit-submit path, as written, hands the store a payload without `pensionDiscount` (its `...data` spread carries whatever keys the form used), where JavaScript would compute a base salary of NaN.
- EmployeeList.EditPayloadFields: the model's edit submission has exactly the record's fields. It does not model extra keys that the `...data` spread would copy into the dispatched record.
- Dependents in the store are whole numbers (`int`). The store does not check this; only the form rule rejects fractions. Also left out is zod's type error for a dependents value that is not a number.
- The CPF check digits are not modelled: the code checks only that there are 11 digits.
- Redux and React plumbing is not modelled: `createSlice`, `dispatch`, `useSelector`, `useState`, `useMemo` and re-rendering. Dispatches are direct method calls on the store object. Also left out are the `isEditModalOpen`, `handleEditClose`, `isDeleteModalOpen` and `handleDeleteClose` members that the hook does not define.
- The form hook's react-hook-form wiring (src/components/EmployeeFormModal/useEmployeeFormModal.ts) is not modelled. Its submit normalisation is `unformatCPF` plus `parseCurrency`, both modelled in `Format`.
- The currency input's keyboard, paste and beforeinput handling is not modelled (src/components/CurrencyInput/CurrencyInput.tsx and src/utils/beforeInput.ts). These are DOM events, and their display goes through `formatCurrency`.
- The older, unused form src/components/EmployeeForm/EmployeeForm.tsx is not modelled.
- Rendering, theming and the theme's `localStorage` persistence are not modelled.
