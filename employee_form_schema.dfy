/** The acceptance rules of the employee form, field by field. Each rule lists
    the checks its field fails; the form is accepted when no check fails.
    A failed length or non-empty check does not stop the field's refinement
    from running, so one field can fail two checks at once. */
module EmployeeFormSchema {
  import Format

  /** The form as submitted: money fields are still display text. */
  datatype EmployeeForm = EmployeeForm(
    name: string,
    cpf: string,
    grossSalary: string,
    pensionDiscount: string,
    dependents: real)

  datatype Issue =
    | NameTooShort
    | CpfTooShort
    | CpfNotElevenDigits
    | GrossSalaryRequired
    | GrossSalaryNotPositive
    | PensionDiscountRequired
    | PensionDiscountNegative
    | DependentsNotInteger
    | DependentsNegative

  /** The message shown for each failed check. */
  function Message(issue: Issue): string
  {
    match issue
    case NameTooShort => "Nome deve ter pelo menos 2 caracteres"
    case CpfTooShort => "CPF inválido"
    case CpfNotElevenDigits => "CPF deve ter 11 dígitos"
    case GrossSalaryRequired => "Campo obrigatório"
    case GrossSalaryNotPositive => "Salário deve ser maior que zero"
    case PensionDiscountRequired => "Campo obrigatório"
    case PensionDiscountNegative => "Desconto deve ser maior ou igual a zero"
    case DependentsNotInteger => "Dependentes deve ser um número inteiro"
    case DependentsNegative => "Campo obrigatório, insira um numero maior ou igual a zero"
  }

  predicate IsInteger(x: real)
  {
    x.Floor as real == x
  }

  /** UTF-16 code units of one character: two for a character outside the
      Basic Multilingual Plane (a surrogate pair), one otherwise. */
  function Utf16Units(c: char): nat
  {
    if c as int >= 0x1_0000 then 2 else 1
  }

  /** A string's JavaScript `length`: its count of UTF-16 code units. */
  function Utf16Length(s: string): (n: nat)
    ensures |s| <= n <= 2 * |s|
  {
    if s == [] then 0 else Utf16Units(s[0]) + Utf16Length(s[1..])
  }

  /** Without characters beyond the Basic Multilingual Plane, the JavaScript
      length is the number of characters. */
  lemma {:induction false} Utf16LengthOfBmp(s: string)
    requires forall i :: 0 <= i < |s| ==> s[i] as int < 0x1_0000
    ensures Utf16Length(s) == |s|
  {
    if s != [] {
      Utf16LengthOfBmp(s[1..]);
    }
  }

  function NameIssues(name: string): seq<Issue>
  {
    if Utf16Length(name) < 2 then [NameTooShort] else []
  }

  function CpfIssues(cpf: string): seq<Issue>
  {
    (if Utf16Length(cpf) < 11 then [CpfTooShort] else []) +
    (if |Format.UnformatCpf(cpf)| != 11 then [CpfNotElevenDigits] else [])
  }

  function GrossSalaryIssues(grossSalary: string): seq<Issue>
  {
    (if |grossSalary| == 0 then [GrossSalaryRequired] else []) +
    (if !(Format.ParseCurrency(grossSalary) > 0.0) then [GrossSalaryNotPositive] else [])
  }

  function PensionDiscountIssues(pensionDiscount: string): seq<Issue>
  {
    (if |pensionDiscount| == 0 then [PensionDiscountRequired] else []) +
    (if !(Format.ParseCurrency(pensionDiscount) >= 0.0) then [PensionDiscountNegative] else [])
  }

  function DependentsIssues(dependents: real): seq<Issue>
  {
    (if !IsInteger(dependents) then [DependentsNotInteger] else []) +
    (if dependents < 0.0 then [DependentsNegative] else [])
  }

  /** Every failed check of the form, field by field. */
  function Issues(form: EmployeeForm): seq<Issue>
  {
    NameIssues(form.name) + CpfIssues(form.cpf) + GrossSalaryIssues(form.grossSalary) +
    PensionDiscountIssues(form.pensionDiscount) + DependentsIssues(form.dependents)
  }

  predicate IsValid(form: EmployeeForm)
  {
    Issues(form) == []
  }

  // ---------------------------------------------------------------------
  // What each rule accepts

  /** A name is accepted when it has at least two UTF-16 code units. */
  lemma NameRule(name: string)
    ensures NameIssues(name) == [] <==> Utf16Length(name) >= 2
  {
  }

  /** A CPF is accepted exactly when it holds 11 digits; the separate length
      check can only fail when the digit check fails too. */
  lemma CpfRule(cpf: string)
    ensures CpfIssues(cpf) == [] <==> Format.ValidateCpf(cpf)
    ensures CpfTooShort in CpfIssues(cpf) ==> CpfNotElevenDigits in CpfIssues(cpf)
  {
  }

  /** A gross salary is accepted exactly when it holds a digit other than 0;
      such text is never empty, so the non-empty check is implied. */
  lemma GrossSalaryRule(grossSalary: string)
    ensures GrossSalaryIssues(grossSalary) == [] <==> Format.HasNonZeroDigit(grossSalary)
  {
    Format.ParseCurrencyPositive(grossSalary);
  }

  /** A pension deduction is accepted exactly when it is not empty: the
      parse is never negative, so the second check never fails. */
  lemma PensionDiscountRule(pensionDiscount: string)
    ensures PensionDiscountIssues(pensionDiscount) == [] <==> |pensionDiscount| > 0
    ensures PensionDiscountNegative !in PensionDiscountIssues(pensionDiscount)
  {
  }

  /** Dependents are accepted when they are a whole number, zero or more. */
  lemma DependentsRule(dependents: real)
    ensures DependentsIssues(dependents) == [] <==> IsInteger(dependents) && dependents >= 0.0
  {
  }

  /** The form is accepted exactly when every field rule accepts. */
  lemma ValidIff(form: EmployeeForm)
    ensures IsValid(form) <==>
      Utf16Length(form.name) >= 2 &&
      Format.ValidateCpf(form.cpf) &&
      Format.HasNonZeroDigit(form.grossSalary) &&
      |form.pensionDiscount| > 0 &&
      IsInteger(form.dependents) && form.dependents >= 0.0
  {
    CpfRule(form.cpf);
    GrossSalaryRule(form.grossSalary);
    PensionDiscountRule(form.pensionDiscount);
  }

  lemma ShortNameExample()
    ensures NameIssues("A") == [NameTooShort]
  {
    assert "A"[1..] == [];
  }

  lemma ShortCpfExample()
    ensures CpfIssues("123") == [CpfTooShort, CpfNotElevenDigits]
  {
    Utf16LengthOfBmp("123");
    assert |Format.UnformatCpf("123")| <= 3;
  }

  /** When every check fails, each is reported once, in field order, two
      per field wherever a field has two checks. */
  lemma IssuesWhenEveryCheckFails(form: EmployeeForm)
    requires Utf16Length(form.name) < 2 && Utf16Length(form.cpf) < 11
    requires form.grossSalary == [] && form.pensionDiscount == []
    requires !IsInteger(form.dependents) && form.dependents < 0.0
    ensures Issues(form) ==
      [NameTooShort, CpfTooShort, CpfNotElevenDigits, GrossSalaryRequired,
       GrossSalaryNotPositive, PensionDiscountRequired, DependentsNotInteger, DependentsNegative]
  {
    assert |Format.UnformatCpf(form.cpf)| <= |form.cpf| <= Utf16Length(form.cpf);
    assert Format.StripNonDigits(form.grossSalary) == [];
    IssuesOfFields(form,
      [NameTooShort], [CpfTooShort, CpfNotElevenDigits], [GrossSalaryRequired, GrossSalaryNotPositive],
      [PensionDiscountRequired], [DependentsNotInteger, DependentsNegative]);
  }

  lemma IssuesExample()
    ensures Issues(EmployeeForm("A", "123", "", "", -1.5)) ==
      [NameTooShort, CpfTooShort, CpfNotElevenDigits, GrossSalaryRequired,
       GrossSalaryNotPositive, PensionDiscountRequired, DependentsNotInteger, DependentsNegative]
  {
    ShortNameExample();
    ShortCpfExample();
    assert (-1.5).Floor == -2;
    IssuesWhenEveryCheckFails(EmployeeForm("A", "123", "", "", -1.5));
  }

  /** The form's issues are the fields' issues, concatenated in field order. */
  lemma IssuesOfFields(form: EmployeeForm, n: seq<Issue>, c: seq<Issue>, g: seq<Issue>, p: seq<Issue>, d: seq<Issue>)
    requires NameIssues(form.name) == n && CpfIssues(form.cpf) == c
    requires GrossSalaryIssues(form.grossSalary) == g && PensionDiscountIssues(form.pensionDiscount) == p
    requires DependentsIssues(form.dependents) == d
    ensures Issues(form) == n + c + g + p + d
  {
  }

  /** The JavaScript length of a concatenation is the sum of the lengths. */
  lemma {:induction false} Utf16LengthAppend(a: string, b: string)
    ensures Utf16Length(a + b) == Utf16Length(a) + Utf16Length(b)
  {
    if a == [] {
      assert a + b == b;
    } else {
      assert (a + b)[0] == a[0] && (a + b)[1..] == a[1..] + b;
      Utf16LengthAppend(a[1..], b);
    }
  }

  /** One character beyond the Basic Multilingual Plane counts as two code
      units, so it is long enough for a name. */
  lemma AstralNameAccepted()
    ensures Utf16Length("\U{1F600}") == 2
    ensures NameIssues("\U{1F600}") == []
  {
    assert "\U{1F600}"[1..] == [];
  }

  /** Ten digits followed by a character beyond the Basic Multilingual Plane
      pass the CPF length check yet fail the digit check. */
  lemma AstralCpfLength(digits: string, c: char)
    requires |digits| == 10 && Format.AllDigits(digits)
    requires c as int >= 0x1_0000
    ensures CpfIssues(digits + [c]) == [CpfNotElevenDigits]
  {
    assert [c][1..] == [];
    assert Utf16Length([c]) == 2;
    Utf16LengthOfBmp(digits);
    Utf16LengthAppend(digits, [c]);
    assert Format.StripNonDigits([c]) == [];
    Format.StripAppend(digits, [c]);
    Format.StripAllDigits(digits);
    assert |Format.UnformatCpf(digits + [c])| == 10;
  }

  /** The two "required" checks share one message; within each field the two
      checks have distinct messages. */
  lemma MessagesPerField()
    ensures Message(GrossSalaryRequired) == Message(PensionDiscountRequired)
    ensures Message(CpfTooShort) != Message(CpfNotElevenDigits)
    ensures Message(GrossSalaryRequired) != Message(GrossSalaryNotPositive)
    ensures Message(PensionDiscountRequired) != Message(PensionDiscountNegative)
    ensures Message(DependentsNotInteger) != Message(DependentsNegative)
  {
    assert Message(CpfTooShort)[4] != Message(CpfNotElevenDigits)[4];
    assert Message(GrossSalaryRequired)[0] != Message(GrossSalaryNotPositive)[0];
    assert Message(PensionDiscountRequired)[0] != Message(PensionDiscountNegative)[0];
    assert Message(DependentsNotInteger)[0] != Message(DependentsNegative)[0];
  }
}
