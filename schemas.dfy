/** The zod schemas of src/services/schemas.ts as checks that list their
    issues in the order zod reports them (field by field, in declaration
    order). `safeParse` succeeds exactly when the list is empty, and the
    message the services surface is the first issue. zod's e-mail pattern is
    not modelled: callers pass the e-mail test in. */
module Schemas {
  import opened Wrappers
  import opened Text
  import opened Calendar

  datatype LoginForm = LoginForm(email: string, password: string)

  datatype RegisterForm = RegisterForm(
    name: string, email: string, password: string,
    cpf: Option<string>, isPro: bool, acceptedTerms: bool)

  /** The fields `TransactionSchema` inspects. */
  datatype TransactionFields = TransactionFields(
    description: string, amount: real, date: string, category: string)

  const InvalidEmail := "E-mail inválido"
  const ShortPassword := "A senha deve ter no mínimo 6 caracteres"
  const ShortName := "Nome deve ter no mínimo 3 caracteres"
  const InvalidCpf := "CPF inválido (use o formato 000.000.000-00)"
  const TermsNotAccepted := "Você deve aceitar os termos de uso"
  const ShortProjectName := "Nome do projeto muito curto"
  const NonPositiveTarget := "O valor deve ser positivo"
  const NegativeCurrent := "O valor atual não pode ser negativo"
  const ShortDescription := "Descrição muito curta"
  const InvalidDate := "Data inválida (YYYY-MM-DD)"
  const MissingCategory := "Categoria é obrigatória"

  /** One issue when `ok` fails. */
  function Check(ok: bool, message: string): seq<string> {
    if ok then [] else [message]
  }

  /** The pattern `^\d{3}\.\d{3}\.\d{3}-\d{2}$`. */
  predicate IsCpfShape(s: string) {
    && |s| == 14
    && IsDigit(s[0]) && IsDigit(s[1]) && IsDigit(s[2]) && s[3] == '.'
    && IsDigit(s[4]) && IsDigit(s[5]) && IsDigit(s[6]) && s[7] == '.'
    && IsDigit(s[8]) && IsDigit(s[9]) && IsDigit(s[10]) && s[11] == '-'
    && IsDigit(s[12]) && IsDigit(s[13])
  }

  function LoginIssues(f: LoginForm, isEmail: string -> bool): seq<string> {
    Check(isEmail(f.email), InvalidEmail) + Check(Utf16Length(f.password) >= 6, ShortPassword)
  }

  function RegisterIssues(f: RegisterForm, isEmail: string -> bool): seq<string> {
    Check(Utf16Length(f.name) >= 3, ShortName)
    + Check(isEmail(f.email), InvalidEmail)
    + Check(Utf16Length(f.password) >= 6, ShortPassword)
    + Check(f.cpf.None? || IsCpfShape(f.cpf.value), InvalidCpf)
    + Check(f.acceptedTerms, TermsNotAccepted)
  }

  /** `ProjectSchema` reads name and the two amounts; the icon is not part
      of it. */
  function ProjectIssues(name: string, targetAmount: real, currentAmount: real): seq<string> {
    Check(Utf16Length(name) >= 3, ShortProjectName)
    + Check(targetAmount > 0.0, NonPositiveTarget)
    + Check(currentAmount >= 0.0, NegativeCurrent)
  }

  function TransactionIssues(t: TransactionFields): seq<string> {
    Check(Utf16Length(t.description) >= 3, ShortDescription)
    + Check(IsIsoDateShape(t.date), InvalidDate)
    + Check(|t.category| >= 1, MissingCategory)
  }

  /** `safeParse` followed by `errors[0].message` on failure. */
  function FirstIssue(issues: seq<string>): (r: Option<string>)
    ensures r.None? <==> issues == []
    ensures r.Some? ==> r.value == issues[0]
  {
    if issues == [] then None else Some(issues[0])
  }

  /** The message reported is that of the first failing check in the
      schema's order: a passing check adds nothing, and a failing one hides
      every later message. */
  lemma FirstFailingCheck(ok: bool, message: string, rest: seq<string>)
    ensures ok ==> FirstIssue(Check(ok, message) + rest) == FirstIssue(rest)
    ensures !ok ==> FirstIssue(Check(ok, message) + rest) == Some(message)
  {
  }

  /** A login form passes exactly when the e-mail test holds and the
      password is at least six UTF-16 code units long (zod's `min` reads
      JavaScript's `length`). */
  lemma LoginValidIff(f: LoginForm, isEmail: string -> bool)
    ensures LoginIssues(f, isEmail) == [] <==> isEmail(f.email) && Utf16Length(f.password) >= 6
  {
  }

  /** A registration passes exactly when the name has at least three
      UTF-16 code units, the e-mail test holds, the password has at least six,
      the CPF is absent or in the 000.000.000-00 shape, and the terms were
      accepted; `isPro` is never a reason to fail. */
  lemma RegisterValidIff(f: RegisterForm, isEmail: string -> bool)
    ensures RegisterIssues(f, isEmail) == [] <==>
      && Utf16Length(f.name) >= 3 && isEmail(f.email) && Utf16Length(f.password) >= 6
      && (f.cpf.None? || IsCpfShape(f.cpf.value)) && f.acceptedTerms
    ensures RegisterIssues(f.(isPro := !f.isPro), isEmail) == RegisterIssues(f, isEmail)
  {
  }

  /** A project passes exactly when its name has at least three code units,
      its target is positive and its current amount is not negative; the
      first failing rule, in that order, gives the message. */
  lemma ProjectValidIff(name: string, targetAmount: real, currentAmount: real)
    ensures ProjectIssues(name, targetAmount, currentAmount) == [] <==>
      Utf16Length(name) >= 3 && targetAmount > 0.0 && currentAmount >= 0.0
    ensures Utf16Length(name) < 3 ==> FirstIssue(ProjectIssues(name, targetAmount, currentAmount)) == Some(ShortProjectName)
    ensures Utf16Length(name) >= 3 && targetAmount <= 0.0 ==>
      FirstIssue(ProjectIssues(name, targetAmount, currentAmount)) == Some(NonPositiveTarget)
  {
  }

  /** A transaction passes exactly when its description has at least three
      code units, its date has the YYYY-MM-DD shape and its category is not
      empty. The amount is never checked, so either sign passes. */
  lemma TransactionValidIff(t: TransactionFields, otherAmount: real)
    ensures TransactionIssues(t) == [] <==>
      Utf16Length(t.description) >= 3 && IsIsoDateShape(t.date) && |t.category| >= 1
    ensures TransactionIssues(t.(amount := otherAmount)) == TransactionIssues(t)
  {
  }

  /** The date rule checks the shape only: a month of 13 and a day of 45
      pass it though no such date exists. */
  lemma DateRuleIgnoresRanges()
    ensures IsIsoDateShape("2024-13-45")
    ensures ParseIso("2024-13-45") == None
  {
    var s := "2024-13-45";
    var m := s[5..7];
    assert m == "13";
    assert m[..1] == "1" && "1"[..0] == [];
    assert DigitsValue(m) == 13;
  }

  /** Every date the entry form writes for a four-digit year passes the
      date rule. */
  lemma FormattedDatesPass(d: Date)
    requires Valid(d) && 0 <= d.year <= 9999
    ensures IsIsoDateShape(FormatIso(d))
  {
    FormatIsoShape(d);
  }

  /** The CPF rule: absent passes, a well-shaped one passes, and a bare run
      of eleven digits fails. */
  lemma CpfExamples(f: RegisterForm, isEmail: string -> bool)
    requires Utf16Length(f.name) >= 3 && isEmail(f.email) && Utf16Length(f.password) >= 6 && f.acceptedTerms
    ensures RegisterIssues(f.(cpf := None), isEmail) == []
    ensures RegisterIssues(f.(cpf := Some("123.456.789-09")), isEmail) == []
    ensures FirstIssue(RegisterIssues(f.(cpf := Some("12345678909")), isEmail)) == Some(InvalidCpf)
  {
  }

  /** Lengths are counted in UTF-16 code units: an emoji beyond the Basic
      Multilingual Plane counts twice, so a two-character name made of one
      emoji and a letter is long enough, while the two letters "ab" are
      too short. */
  lemma AstralCharactersCountTwice(f: RegisterForm, isEmail: string -> bool)
    requires isEmail(f.email) && Utf16Length(f.password) >= 6 && f.acceptedTerms && f.cpf.None?
    ensures Utf16Length("\U{1F600}a") == 3
    ensures RegisterIssues(f.(name := "\U{1F600}a"), isEmail) == []
    ensures RegisterIssues(f.(name := "ab"), isEmail) == [ShortName]
  {
  }
}
