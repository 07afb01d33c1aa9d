/**
 * The process form (src/pages/ProcessForm.tsx): the remaining-time label,
 * the field reducer with the derived execution percentage, the exhaustive
 * validation of a draft, the mapping to the backend's field names, and the
 * page state with its in-flight guard.
 */
module ProcessForm {
  import opened Browser
  import opened Decimal
  import opened JsString

  // ---- calculateRemainingTime ----

  /**
   * `Math.ceil` of the day difference between the service-order date and now:
   * a whole number of days, or NaN when the date does not parse.
   */
  datatype DayDiff = Days(d: int) | NotANumber

  const RemainingSuffix := " dias restantes"
  const ElapsedSuffix := " dias decorridos"

  /** `tempoRestante`: never empty, since the empty text is kept for a cleared date (see ParseLabelRoundTrip). */
  function RemainingLabel(diff: DayDiff): (shown: string)
    ensures shown != ""
  {
    match diff
    case NotANumber => "Data inválida"
    case Days(d) =>
      if d > 1 then NatToString(d) + RemainingSuffix
      else if d == 1 then "1 dia restante"
      else if d == 0 then "Hoje"
      else if d == -1 then "Ontem"
      else NatToString(-d) + ElapsedSuffix
  }

  /** The number a label of the form "<digits><suffix>" carries, when it has that form. */
  function CountBefore(s: string, suffix: string): (r: Option<nat>)
    ensures r.Some? ==> |s| > |suffix| && s[|s| - |suffix|..] == suffix
  {
    var k := |s| - |suffix|;
    if k > 0 && s[k..] == suffix && AllDigits(s[..k]) then Some(ParseNat(s[..k])) else None
  }

  /** Reads a remaining-time label back into the day difference it reports. */
  function ParseLabel(s: string): (r: Option<DayDiff>)
    ensures s == "" ==> r == None
  {
    if s == "Hoje" then Some(Days(0))
    else if s == "Ontem" then Some(Days(-1))
    else if s == "1 dia restante" then Some(Days(1))
    else if s == "Data inválida" then Some(NotANumber)
    else match CountBefore(s, RemainingSuffix)
      case Some(n) => Some(Days(n))
      case None =>
        match CountBefore(s, ElapsedSuffix)
        case Some(n) => Some(Days(-(n as int)))
        case None => None
  }

  lemma CountBeforeOfCount(n: nat, suffix: string)
    ensures CountBefore(NatToString(n) + suffix, suffix) == Some(n)
  {
    var s := NatToString(n) + suffix;
    assert s[..|s| - |suffix|] == NatToString(n);
    assert s[|s| - |suffix|..] == suffix;
    ParseNatOfNatToString(n);
  }

  lemma RemainingCountRoundTrip(d: int)
    requires d > 1
    ensures ParseLabel(RemainingLabel(Days(d))) == Some(Days(d))
  {
    var s := NatToString(d) + RemainingSuffix;
    assert |s| > 15;
    CountBeforeOfCount(d, RemainingSuffix);
  }

  /** An elapsed-days label does not end in the remaining-days suffix. */
  lemma ElapsedIsNotRemaining(n: nat)
    ensures CountBefore(NatToString(n) + ElapsedSuffix, RemainingSuffix) == None
  {
    var s := NatToString(n) + ElapsedSuffix;
    assert s[|s| - |RemainingSuffix|] == ElapsedSuffix[1];
  }

  /** A label longer than the fixed ones is read by its suffix. */
  lemma ParseCountedLabel(s: string)
    requires |s| > 15
    ensures CountBefore(s, RemainingSuffix).Some? ==> ParseLabel(s) == Some(Days(CountBefore(s, RemainingSuffix).value))
    ensures CountBefore(s, RemainingSuffix).None? && CountBefore(s, ElapsedSuffix).Some? ==>
      ParseLabel(s) == Some(Days(-(CountBefore(s, ElapsedSuffix).value as int)))
  {
    assert s != "Hoje" && s != "Ontem" && s != "1 dia restante" && s != "Data inválida";
  }

  lemma ElapsedCountRoundTrip(d: int)
    requires d < -1
    ensures ParseLabel(RemainingLabel(Days(d))) == Some(Days(d))
  {
    var n: nat := -d;
    var s := NatToString(n) + ElapsedSuffix;
    assert RemainingLabel(Days(d)) == s;
    ElapsedIsNotRemaining(n);
    CountBeforeOfCount(n, ElapsedSuffix);
    ParseCountedLabel(s);
  }

  /** Every label names exactly the day difference it was made from. */
  lemma ParseLabelRoundTrip(diff: DayDiff)
    ensures ParseLabel(RemainingLabel(diff)) == Some(diff)
  {
    if diff.Days? {
      if diff.d > 1 {
        RemainingCountRoundTrip(diff.d);
      } else if diff.d < -1 {
        ElapsedCountRoundTrip(diff.d);
      }
    }
  }

  /** The label is one of five day-count forms or "Data inválida", and tells them apart. */
  lemma LabelClassifiesDifference(diff: DayDiff)
    ensures RemainingLabel(diff) == "Hoje" <==> diff == Days(0)
    ensures RemainingLabel(diff) == "Ontem" <==> diff == Days(-1)
    ensures RemainingLabel(diff) == "1 dia restante" <==> diff == Days(1)
    ensures RemainingLabel(diff) == "Data inválida" <==> diff == NotANumber
  {
    ParseLabelRoundTrip(diff);
  }

  lemma LabelInjective(a: DayDiff, b: DayDiff)
    ensures RemainingLabel(a) == RemainingLabel(b) <==> a == b
  {
    ParseLabelRoundTrip(a);
    ParseLabelRoundTrip(b);
  }

  // ---- The draft ----

  datatype FormData = FormData(
    processName: string,
    objectKind: string,
    contractType: string,
    currentStage: string,
    schoolsImpacted: int,
    studentsImpacted: int,
    totalValue: string,
    executedValue: string,
    executionPercentage: real,
    serviceOrderDate: string,
    deadlineDate: string,
    commitmentDate: string,
    commitmentNumber: string,
    riskLevel: string,
    riskJustification: string,
    probability: string,
    impact: string,
    remainingTime: string)

  /** The draft the page starts from and returns to after a successful submission. */
  const InitialForm := FormData("", "", "", "", 0, 0, "", "", 0.0, "", "", "", "", "", "", "", "", "")

  /** The inputs wired to `handleChange` (text, select, radio and date inputs). */
  datatype TextField =
    | ProcessName | ObjectKind | ContractType | CurrentStage
    | TotalValue | ExecutedValue
    | ServiceOrderDate | DeadlineDate | CommitmentDate | CommitmentNumber
    | RiskLevel | RiskJustification | Probability | Impact

  /** The inputs wired to `handleNumberChange`. */
  datatype NumberField = SchoolsImpacted | StudentsImpacted

  predicate IsMoney(name: TextField) {
    name == TotalValue || name == ExecutedValue
  }

  function GetText(f: FormData, name: TextField): string {
    match name
    case ProcessName => f.processName
    case ObjectKind => f.objectKind
    case ContractType => f.contractType
    case CurrentStage => f.currentStage
    case TotalValue => f.totalValue
    case ExecutedValue => f.executedValue
    case ServiceOrderDate => f.serviceOrderDate
    case DeadlineDate => f.deadlineDate
    case CommitmentDate => f.commitmentDate
    case CommitmentNumber => f.commitmentNumber
    case RiskLevel => f.riskLevel
    case RiskJustification => f.riskJustification
    case Probability => f.probability
    case Impact => f.impact
  }

  /** `{ ...prevData, [name]: value }` */
  function SetText(f: FormData, name: TextField, value: string): FormData {
    match name
    case ProcessName => f.(processName := value)
    case ObjectKind => f.(objectKind := value)
    case ContractType => f.(contractType := value)
    case CurrentStage => f.(currentStage := value)
    case TotalValue => f.(totalValue := value)
    case ExecutedValue => f.(executedValue := value)
    case ServiceOrderDate => f.(serviceOrderDate := value)
    case DeadlineDate => f.(deadlineDate := value)
    case CommitmentDate => f.(commitmentDate := value)
    case CommitmentNumber => f.(commitmentNumber := value)
    case RiskLevel => f.(riskLevel := value)
    case RiskJustification => f.(riskJustification := value)
    case Probability => f.(probability := value)
    case Impact => f.(impact := value)
  }

  /**
   * `(executed / total) * 100` with `total = parseFloat(totalValue) || 0` and
   * `executed = parseFloat(executedValue) || 0`, or 0 unless total > 0.
   * Exact real arithmetic: the rounding of `toFixed(2)` is not modelled.
   */
  function ExecutionPercentage(totalText: string, executedText: string): (p: real)
    ensures ParseFloatOrZero(totalText) <= 0.0 ==> p == 0.0
  {
    var total := ParseFloatOrZero(totalText);
    var executed := ParseFloatOrZero(executedText);
    if total > 0.0 then executed / total * 100.0 else 0.0
  }

  /** A blank or negative total can never give a non-zero percentage. */
  lemma PercentageZeroForUnusableTotal(totalText: string, executedText: string)
    requires IsBlank(totalText) || (|TrimStart(totalText)| > 0 && TrimStart(totalText)[0] == '-')
    ensures ExecutionPercentage(totalText, executedText) == 0.0
  {
    if IsBlank(totalText) {
      BlankTrimsToEmpty(totalText);
    }
  }

  /** For whole numbers typed as plain digits the percentage is their exact ratio. */
  lemma PercentageOfWholeNumbers(total: nat, executed: nat)
    requires total > 0
    ensures ExecutionPercentage(NatToString(total), NatToString(executed)) == (executed as real) / (total as real) * 100.0
  {
    ParseFloatOfNatToString(total);
    ParseFloatOfNatToString(executed);
    assert ParseFloatOrZero(NatToString(total)) == total as real;
    assert ParseFloatOrZero(NatToString(executed)) == executed as real;
  }

  lemma QuotientAtMostOne(x: real, y: real)
    requires 0.0 <= x <= y && y > 0.0
    ensures 0.0 <= x / y <= 1.0
  {
  }

  lemma PercentageWithinRange(totalText: string, executedText: string)
    requires 0.0 <= ParseFloatOrZero(executedText) <= ParseFloatOrZero(totalText)
    ensures 0.0 <= ExecutionPercentage(totalText, executedText) <= 100.0
  {
    var total := ParseFloatOrZero(totalText);
    var executed := ParseFloatOrZero(executedText);
    if total > 0.0 {
      QuotientAtMostOne(executed, total);
    }
  }

  /**
   * The functional update passed to `setFormData` by `handleChange`: the named
   * field takes the value and, for the two money fields only, the percentage
   * is recomputed from the updated draft.
   */
  function ChangeField(f: FormData, name: TextField, value: string): (r: FormData)
    ensures GetText(r, name) == value
    ensures r.schoolsImpacted == f.schoolsImpacted && r.studentsImpacted == f.studentsImpacted
    ensures r.remainingTime == f.remainingTime
    ensures IsMoney(name) ==> r.executionPercentage == ExecutionPercentage(r.totalValue, r.executedValue)
    ensures !IsMoney(name) ==> r.executionPercentage == f.executionPercentage
  {
    var g := SetText(f, name, value);
    if IsMoney(name) then g.(executionPercentage := ExecutionPercentage(g.totalValue, g.executedValue)) else g
  }

  /** Every text input other than the one edited keeps its value. */
  lemma ChangeFieldLeavesOthers(f: FormData, name: TextField, value: string, other: TextField)
    requires other != name
    ensures GetText(ChangeField(f, name, value), other) == GetText(f, other)
  {
  }

  /** The functional update of `handleNumberChange`; `Number(value)` is taken as an integer input. */
  function ChangeNumber(f: FormData, name: NumberField, value: int): (r: FormData)
    ensures name == SchoolsImpacted ==> r == f.(schoolsImpacted := value)
    ensures name == StudentsImpacted ==> r == f.(studentsImpacted := value)
  {
    match name
    case SchoolsImpacted => f.(schoolsImpacted := value)
    case StudentsImpacted => f.(studentsImpacted := value)
  }

  /** The effect on `serviceOrderDate`: the label for a set date, "" for a cleared one. */
  function RefreshRemainingTime(f: FormData, diff: DayDiff): (r: FormData)
    ensures r.serviceOrderDate != "" ==> ParseLabel(r.remainingTime) == Some(diff)
    ensures r.serviceOrderDate == "" ==> r.remainingTime == ""
    ensures r.(remainingTime := f.remainingTime) == f
  {
    ParseLabelRoundTrip(diff);
    f.(remainingTime := if f.serviceOrderDate != "" then RemainingLabel(diff) else "")
  }

  // ---- Validation ----

  const DateBound := "9999-09-09"

  /** `date && date > "9999-09-09"`: the string comparison of the source. */
  predicate DateTooLate(date: string)
    ensures DateTooLate(date) ==> date != DateBound && !StrLess(date, DateBound)
  {
    StrLessAsymmetric(DateBound, date);
    date != "" && StrLess(DateBound, date)
  }

  /** A key of the error map: the name of an input of either kind. */
  datatype Field = Text(text: TextField) | Number(number: NumberField)

  /**
   * The outcome of every test the validation block of `handleSubmit` makes
   * on the draft. The rules read only these, so the rules and the tests can
   * be reasoned about apart.
   */
  datatype Checks = Checks(
    nameBlank: bool, objectMissing: bool, contractMissing: bool, stageMissing: bool,
    schoolsNegative: bool, studentsNegative: bool,
    totalBlank: bool, totalNotNumber: bool, executedBlank: bool, executedNotNumber: bool,
    riskMissing: bool, probabilityMissing: bool, impactMissing: bool,
    commitmentLate: bool, deadlineLate: bool, serviceOrderLate: bool)

  /** `!x.trim()`, `!x`, `x < 0`, `isNaN(Number(x))` and the date bound, on each input. */
  function ChecksOf(f: FormData): Checks {
    Checks(
      IsBlank(f.processName), f.objectKind == "", f.contractType == "", f.currentStage == "",
      f.schoolsImpacted < 0, f.studentsImpacted < 0,
      IsBlank(f.totalValue), !IsNumericText(f.totalValue),
      IsBlank(f.executedValue), !IsNumericText(f.executedValue),
      f.riskLevel == "", f.probability == "", f.impact == "",
      DateTooLate(f.commitmentDate), DateTooLate(f.deadlineDate), DateTooLate(f.serviceOrderDate))
  }

  // The messages of the validation block.
  const NameRequired := "O nome do processo é obrigatório."
  const ObjectRequired := "Selecione o objeto."
  const ContractTypeRequired := "Selecione o tipo de contrato."
  const StageRequired := "Selecione a etapa atual."
  const SchoolsNegative := "A abrangência não pode ser negativa."
  const StudentsNegative := "O número de estudantes não pode ser negativo."
  const TotalRequired := "O valor total previsto é obrigatório."
  const TotalNotNumber := "O valor total previsto deve ser um número."
  const ExecutedRequired := "O valor já executado é obrigatório."
  const ExecutedNotNumber := "O valor já executado deve ser um número."
  const RiskRequired := "Selecione o nível de risco."
  const ProbabilityRequired := "Selecione a probabilidade."
  const ImpactRequired := "Selecione o impacto."
  const CommitmentTooLate := "A data do empenho não pode ser maior que 09/09/9999."
  const DeadlineTooLate := "O prazo final não pode ser maior que 09/09/9999."
  const ServiceOrderTooLate := "A data da ordem de serviço não pode ser maior que 09/09/9999."

  /** A money input: "obrigatório" when blank, otherwise "deve ser um número" when not numeric. */
  function MoneyError(blank: bool, notNumber: bool, required: string, notNumberMessage: string): Option<string> {
    if blank then Some(required)
    else if notNumber then Some(notNumberMessage)
    else None
  }

  function Flag(fires: bool, message: string): Option<string> {
    if fires then Some(message) else None
  }

  /** The error the rule for one input reports, if it fires. */
  function RuleError(c: Checks, key: Field): (r: Option<string>)
    ensures r.Some? ==> key in RuleOrder
  {
    match key
    case Text(ProcessName) => Flag(c.nameBlank, NameRequired)
    case Text(ObjectKind) => Flag(c.objectMissing, ObjectRequired)
    case Text(ContractType) => Flag(c.contractMissing, ContractTypeRequired)
    case Text(CurrentStage) => Flag(c.stageMissing, StageRequired)
    case Number(SchoolsImpacted) => Flag(c.schoolsNegative, SchoolsNegative)
    case Number(StudentsImpacted) => Flag(c.studentsNegative, StudentsNegative)
    case Text(TotalValue) =>
      MoneyError(c.totalBlank, c.totalNotNumber, TotalRequired, TotalNotNumber)
    case Text(ExecutedValue) =>
      MoneyError(c.executedBlank, c.executedNotNumber, ExecutedRequired, ExecutedNotNumber)
    case Text(RiskLevel) => Flag(c.riskMissing, RiskRequired)
    case Text(Probability) => Flag(c.probabilityMissing, ProbabilityRequired)
    case Text(Impact) => Flag(c.impactMissing, ImpactRequired)
    case Text(CommitmentDate) => Flag(c.commitmentLate, CommitmentTooLate)
    case Text(DeadlineDate) => Flag(c.deadlineLate, DeadlineTooLate)
    case Text(ServiceOrderDate) => Flag(c.serviceOrderLate, ServiceOrderTooLate)
    case Text(CommitmentNumber) => None
    case Text(RiskJustification) => None
  }

  /** The error the rule for one input reports on the draft, if it fires. */
  function ErrorFor(f: FormData, key: Field): Option<string> {
    RuleError(ChecksOf(f), key)
  }

  /** `validationErrors[key] = message` when the rule for `key` fires, on the object the earlier rules left. */
  function RunRule(m: map<Field, string>, c: Checks, key: Field): map<Field, string> {
    match RuleError(c, key)
    case Some(msg) => m[key := msg]
    case None => m
  }

  /** The inputs that have a rule, in the order `handleSubmit` tests them. */
  const RuleOrder: seq<Field> := [
    Text(ProcessName), Text(ObjectKind), Text(ContractType), Text(CurrentStage),
    Number(SchoolsImpacted), Number(StudentsImpacted), Text(TotalValue), Text(ExecutedValue),
    Text(RiskLevel), Text(Probability), Text(Impact),
    Text(CommitmentDate), Text(DeadlineDate), Text(ServiceOrderDate)]

  /** The reports of the rules for `keys`, one per firing rule, by key. */
  function Reports(c: Checks, keys: seq<Field>): map<Field, string> {
    map k | k in keys && RuleError(c, k).Some? :: RuleError(c, k).value
  }

  /** `validationErrors` once every rule has run. */
  function ErrorsFrom(c: Checks): (errors: map<Field, string>)
    ensures forall k :: k in errors <==> RuleError(c, k).Some?
    ensures forall k :: k in errors ==> errors[k] == RuleError(c, k).value
  {
    Reports(c, RuleOrder)
  }

  /** `validationErrors` for the draft. */
  function ValidationErrors(f: FormData): (errors: map<Field, string>)
    ensures forall k :: k in errors <==> ErrorFor(f, k).Some?
    ensures forall k :: k in errors ==> errors[k] == ErrorFor(f, k).value
  {
    ErrorsFrom(ChecksOf(f))
  }

  /** No test fails. */
  predicate AllClear(c: Checks) {
    && !c.nameBlank && !c.objectMissing && !c.contractMissing && !c.stageMissing
    && !c.schoolsNegative && !c.studentsNegative
    && !c.totalBlank && !c.totalNotNumber && !c.executedBlank && !c.executedNotNumber
    && !c.riskMissing && !c.probabilityMissing && !c.impactMissing
    && !c.commitmentLate && !c.deadlineLate && !c.serviceOrderLate
  }

  lemma ClearFiresNoText(c: Checks, t: TextField)
    requires AllClear(c)
    ensures RuleError(c, Text(t)) == None
  {
  }

  /** With every test passing, no rule fires. */
  lemma ClearFiresNothing(c: Checks, k: Field)
    requires AllClear(c)
    ensures RuleError(c, k) == None
  {
    match k
    case Text(t) => ClearFiresNoText(c, t);
    case Number(_) =>
  }

  lemma ClearMeansNoErrors(c: Checks)
    requires AllClear(c)
    ensures ErrorsFrom(c) == map[]
  {
    forall k | k in RuleOrder ensures RuleError(c, k) == None {
      ClearFiresNothing(c, k);
    }
    assert ErrorsFrom(c).Keys == {};
  }

  /** An empty error object means each of the sixteen tests passed. */
  lemma NoErrorsNoRule(c: Checks, k: Field)
    requires ErrorsFrom(c) == map[]
    ensures RuleError(c, k) == None
  {
  }

  lemma NoErrorsClearsSelections(c: Checks)
    requires ErrorsFrom(c) == map[]
    ensures !c.nameBlank && !c.objectMissing && !c.contractMissing && !c.stageMissing
    ensures !c.riskMissing && !c.probabilityMissing && !c.impactMissing
  {
    NoErrorsNoRule(c, Text(ProcessName));
    NoErrorsNoRule(c, Text(ObjectKind));
    NoErrorsNoRule(c, Text(ContractType));
    NoErrorsNoRule(c, Text(CurrentStage));
    NoErrorsNoRule(c, Text(RiskLevel));
    NoErrorsNoRule(c, Text(Probability));
    NoErrorsNoRule(c, Text(Impact));
  }

  lemma NoErrorsClearsValues(c: Checks)
    requires ErrorsFrom(c) == map[]
    ensures !c.schoolsNegative && !c.studentsNegative
    ensures !c.totalBlank && !c.totalNotNumber && !c.executedBlank && !c.executedNotNumber
  {
    NoErrorsNoRule(c, Number(SchoolsImpacted));
    NoErrorsNoRule(c, Number(StudentsImpacted));
    NoErrorsNoRule(c, Text(TotalValue));
    NoErrorsNoRule(c, Text(ExecutedValue));
  }

  lemma NoErrorsClearsDates(c: Checks)
    requires ErrorsFrom(c) == map[]
    ensures !c.commitmentLate && !c.deadlineLate && !c.serviceOrderLate
  {
    NoErrorsNoRule(c, Text(CommitmentDate));
    NoErrorsNoRule(c, Text(DeadlineDate));
    NoErrorsNoRule(c, Text(ServiceOrderDate));
  }

  /** An empty error object means each of the sixteen tests passed. */
  lemma NoErrorsMeansClear(c: Checks)
    requires ErrorsFrom(c) == map[]
    ensures AllClear(c)
  {
    NoErrorsClearsSelections(c);
    NoErrorsClearsValues(c);
    NoErrorsClearsDates(c);
  }

  lemma NoErrorsIffAllClear(c: Checks)
    ensures ErrorsFrom(c) == map[] <==> AllClear(c)
  {
    if AllClear(c) {
      ClearMeansNoErrors(c);
    }
    if ErrorsFrom(c) == map[] {
      NoErrorsMeansClear(c);
    }
  }

  /** The draft a submission accepts, test by test. */
  predicate PassesValidation(f: FormData) {
    && !IsBlank(f.processName)
    && f.objectKind != "" && f.contractType != "" && f.currentStage != ""
    && f.schoolsImpacted >= 0 && f.studentsImpacted >= 0
    && !IsBlank(f.totalValue) && IsNumericText(f.totalValue)
    && !IsBlank(f.executedValue) && IsNumericText(f.executedValue)
    && f.riskLevel != "" && f.probability != "" && f.impact != ""
    && !DateTooLate(f.commitmentDate) && !DateTooLate(f.deadlineDate) && !DateTooLate(f.serviceOrderDate)
  }

  /** The error object is empty exactly when every test passes. */
  lemma NoErrorsIffPasses(f: FormData)
    ensures ValidationErrors(f) == map[] <==> PassesValidation(f)
  {
    NoErrorsIffAllClear(ChecksOf(f));
  }

  /** A process name of nothing but white space is reported. */
  lemma BlankNameReported(f: FormData)
    requires IsBlank(f.processName)
    ensures Text(ProcessName) in ValidationErrors(f)
    ensures ValidationErrors(f)[Text(ProcessName)] == NameRequired
  {
  }

  /** The six inputs filled from a drop-down list. */
  predicate IsSelect(name: TextField) {
    name in {ObjectKind, ContractType, CurrentStage, RiskLevel, Probability, Impact}
  }

  /** Any drop-down list left at its empty option is reported, whatever else the draft holds. */
  lemma EmptySelectReported(f: FormData, name: TextField)
    requires IsSelect(name) && GetText(f, name) == ""
    ensures Text(name) in ValidationErrors(f)
  {
  }

  /** Of the two messages of the total, blank text gets only "obrigatório", other non-numeric text only "deve ser um número". */
  lemma TotalMessagesExclusive(f: FormData)
    ensures Text(TotalValue) in ValidationErrors(f) <==> IsBlank(f.totalValue) || !IsNumericText(f.totalValue)
    ensures IsBlank(f.totalValue) ==> ValidationErrors(f)[Text(TotalValue)] == TotalRequired
    ensures !IsBlank(f.totalValue) && !IsNumericText(f.totalValue) ==>
      ValidationErrors(f)[Text(TotalValue)] == TotalNotNumber
  {
  }

  /** The same two messages, exclusive, for the amount already executed. */
  lemma ExecutedMessagesExclusive(f: FormData)
    ensures Text(ExecutedValue) in ValidationErrors(f) <==> IsBlank(f.executedValue) || !IsNumericText(f.executedValue)
    ensures IsBlank(f.executedValue) ==> ValidationErrors(f)[Text(ExecutedValue)] == ExecutedRequired
    ensures !IsBlank(f.executedValue) && !IsNumericText(f.executedValue) ==>
      ValidationErrors(f)[Text(ExecutedValue)] == ExecutedNotNumber
  {
  }

  /** Adding one rule at the end of the list: its report is laid over the earlier ones. */
  lemma ReportsSnoc(c: Checks, keys: seq<Field>, key: Field)
    ensures Reports(c, keys + [key]) == RunRule(Reports(c, keys), c, key)
  {
  }

  /** The object after the first `n` tests of `handleSubmit`, in source order. */
  function RulesUpTo(c: Checks, n: nat): map<Field, string>
    requires n <= |RuleOrder|
  {
    if n == 0 then map[] else RunRule(RulesUpTo(c, n - 1), c, RuleOrder[n - 1])
  }

  /** The first `n` tests leave the reports of the first `n` rules. */
  lemma {:induction false} RulesUpToReports(c: Checks, n: nat)
    requires n <= |RuleOrder|
    ensures RulesUpTo(c, n) == Reports(c, RuleOrder[..n])
  {
    if n > 0 {
      RulesUpToReports(c, n - 1);
      assert RuleOrder[..n] == RuleOrder[..n - 1] + [RuleOrder[n - 1]];
      ReportsSnoc(c, RuleOrder[..n - 1], RuleOrder[n - 1]);
    }
  }

  /** A test that assigns `message` to `key` when it fails is the rule for `key`. */
  lemma FlagTest(m: map<Field, string>, c: Checks, key: Field, fails: bool, message: string)
    requires RuleError(c, key) == Flag(fails, message)
    ensures RunRule(m, c, key) == if fails then m[key := message] else m
  {
  }

  /** A money test: "obrigatório" when blank, else "deve ser um número" when not numeric. */
  lemma MoneyTest(m: map<Field, string>, c: Checks, key: Field, blank: bool, notNumber: bool, required: string, notNumberMessage: string)
    requires RuleError(c, key) == MoneyError(blank, notNumber, required, notNumberMessage)
    ensures RunRule(m, c, key) ==
      if blank then m[key := required] else if notNumber then m[key := notNumberMessage] else m
  {
  }

  // The tests of `handleSubmit`, block by block. Each method takes the
  // object the earlier tests left (`done` of them) and runs the next ones as
  // written; after each `if` the object is the one `RulesUpTo` describes.

  /**
   * The name must not be blank and the three selections must be made.
   * The ghost `done` counts the tests already run; it keeps the proof to one rule per step.
   */
  method CheckRequiredChoices(c: Checks, ghost done: nat, before: map<Field, string>) returns (validationErrors: map<Field, string>)
    requires done == 0 && before == RulesUpTo(c, done)
    ensures validationErrors == RulesUpTo(c, done + 4)
  {
    validationErrors := before;
    ghost var tested := done;
    ghost var previous := validationErrors;
    if c.nameBlank {
      validationErrors := validationErrors[Text(ProcessName) := NameRequired];
    }
    FlagTest(previous, c, Text(ProcessName), c.nameBlank, NameRequired);
    tested := tested + 1;
    assert validationErrors == RulesUpTo(c, tested);
    previous := validationErrors;
    if c.objectMissing {
      validationErrors := validationErrors[Text(ObjectKind) := ObjectRequired];
    }
    FlagTest(previous, c, Text(ObjectKind), c.objectMissing, ObjectRequired);
    tested := tested + 1;
    assert validationErrors == RulesUpTo(c, tested);
    previous := validationErrors;
    if c.contractMissing {
      validationErrors := validationErrors[Text(ContractType) := ContractTypeRequired];
    }
    FlagTest(previous, c, Text(ContractType), c.contractMissing, ContractTypeRequired);
    tested := tested + 1;
    assert validationErrors == RulesUpTo(c, tested);
    previous := validationErrors;
    if c.stageMissing {
      validationErrors := validationErrors[Text(CurrentStage) := StageRequired];
    }
    FlagTest(previous, c, Text(CurrentStage), c.stageMissing, StageRequired);
    tested := tested + 1;
    assert validationErrors == RulesUpTo(c, tested);
  }

  /**
   * The two counts must not be negative.
   * The ghost `done` counts the tests already run; it keeps the proof to one rule per step.
   */
  method CheckCounts(c: Checks, ghost done: nat, before: map<Field, string>) returns (validationErrors: map<Field, string>)
    requires done == 4 && before == RulesUpTo(c, done)
    ensures validationErrors == RulesUpTo(c, done + 2)
  {
    validationErrors := before;
    ghost var tested := done;
    ghost var previous := validationErrors;
    if c.schoolsNegative {
      validationErrors := validationErrors[Number(SchoolsImpacted) := SchoolsNegative];
    }
    FlagTest(previous, c, Number(SchoolsImpacted), c.schoolsNegative, SchoolsNegative);
    tested := tested + 1;
    assert validationErrors == RulesUpTo(c, tested);
    previous := validationErrors;
    if c.studentsNegative {
      validationErrors := validationErrors[Number(StudentsImpacted) := StudentsNegative];
    }
    FlagTest(previous, c, Number(StudentsImpacted), c.studentsNegative, StudentsNegative);
    tested := tested + 1;
    assert validationErrors == RulesUpTo(c, tested);
  }

  /**
   * The two money inputs: required, then numeric.
   * The ghost `done` counts the tests already run; it keeps the proof to one rule per step.
   */
  method CheckMoney(c: Checks, ghost done: nat, before: map<Field, string>) returns (validationErrors: map<Field, string>)
    requires done == 6 && before == RulesUpTo(c, done)
    ensures validationErrors == RulesUpTo(c, done + 2)
  {
    validationErrors := before;
    ghost var tested := done;
    ghost var previous := validationErrors;
    if c.totalBlank {
      validationErrors := validationErrors[Text(TotalValue) := TotalRequired];
    } else if c.totalNotNumber {
      validationErrors := validationErrors[Text(TotalValue) := TotalNotNumber];
    }
    MoneyTest(previous, c, Text(TotalValue), c.totalBlank, c.totalNotNumber, TotalRequired, TotalNotNumber);
    tested := tested + 1;
    assert validationErrors == RulesUpTo(c, tested);
    previous := validationErrors;
    if c.executedBlank {
      validationErrors := validationErrors[Text(ExecutedValue) := ExecutedRequired];
    } else if c.executedNotNumber {
      validationErrors := validationErrors[Text(ExecutedValue) := ExecutedNotNumber];
    }
    MoneyTest(previous, c, Text(ExecutedValue), c.executedBlank, c.executedNotNumber, ExecutedRequired, ExecutedNotNumber);
    tested := tested + 1;
    assert validationErrors == RulesUpTo(c, tested);
  }

  /**
   * The three selections of the risk part.
   * The ghost `done` counts the tests already run; it keeps the proof to one rule per step.
   */
  method CheckRiskChoices(c: Checks, ghost done: nat, before: map<Field, string>) returns (validationErrors: map<Field, string>)
    requires done == 8 && before == RulesUpTo(c, done)
    ensures validationErrors == RulesUpTo(c, done + 3)
  {
    validationErrors := before;
    ghost var tested := done;
    ghost var previous := validationErrors;
    if c.riskMissing {
      validationErrors := validationErrors[Text(RiskLevel) := RiskRequired];
    }
    FlagTest(previous, c, Text(RiskLevel), c.riskMissing, RiskRequired);
    tested := tested + 1;
    assert validationErrors == RulesUpTo(c, tested);
    previous := validationErrors;
    if c.probabilityMissing {
      validationErrors := validationErrors[Text(Probability) := ProbabilityRequired];
    }
    FlagTest(previous, c, Text(Probability), c.probabilityMissing, ProbabilityRequired);
    tested := tested + 1;
    assert validationErrors == RulesUpTo(c, tested);
    previous := validationErrors;
    if c.impactMissing {
      validationErrors := validationErrors[Text(Impact) := ImpactRequired];
    }
    FlagTest(previous, c, Text(Impact), c.impactMissing, ImpactRequired);
    tested := tested + 1;
    assert validationErrors == RulesUpTo(c, tested);
  }

  /**
   * The three dates must not pass 9999-09-09.
   * The ghost `done` counts the tests already run; it keeps the proof to one rule per step.
   */
  method CheckDateBounds(c: Checks, ghost done: nat, before: map<Field, string>) returns (validationErrors: map<Field, string>)
    requires done == 11 && before == RulesUpTo(c, done)
    ensures validationErrors == RulesUpTo(c, done + 3)
  {
    validationErrors := before;
    ghost var tested := done;
    ghost var previous := validationErrors;
    if c.commitmentLate {
      validationErrors := validationErrors[Text(CommitmentDate) := CommitmentTooLate];
    }
    FlagTest(previous, c, Text(CommitmentDate), c.commitmentLate, CommitmentTooLate);
    tested := tested + 1;
    assert validationErrors == RulesUpTo(c, tested);
    previous := validationErrors;
    if c.deadlineLate {
      validationErrors := validationErrors[Text(DeadlineDate) := DeadlineTooLate];
    }
    FlagTest(previous, c, Text(DeadlineDate), c.deadlineLate, DeadlineTooLate);
    tested := tested + 1;
    assert validationErrors == RulesUpTo(c, tested);
    previous := validationErrors;
    if c.serviceOrderLate {
      validationErrors := validationErrors[Text(ServiceOrderDate) := ServiceOrderTooLate];
    }
    FlagTest(previous, c, Text(ServiceOrderDate), c.serviceOrderLate, ServiceOrderTooLate);
    tested := tested + 1;
    assert validationErrors == RulesUpTo(c, tested);
  }

  /**
   * The validation block of `handleSubmit`: the fourteen tests in source
   * order on a fresh object, each assigning its own key when it fails. The
   * result is exactly one report per failing rule.
   */
  method Validate(c: Checks) returns (validationErrors: map<Field, string>)
    ensures validationErrors == ErrorsFrom(c)
  {
    validationErrors := map[];
    ghost var done := 0;
    validationErrors := CheckRequiredChoices(c, done, validationErrors);
    done := done + 4;
    validationErrors := CheckCounts(c, done, validationErrors);
    done := done + 2;
    validationErrors := CheckMoney(c, done, validationErrors);
    done := done + 2;
    validationErrors := CheckRiskChoices(c, done, validationErrors);
    done := done + 3;
    validationErrors := CheckDateBounds(c, done, validationErrors);
    done := done + 3;
    RulesUpToReports(c, |RuleOrder|);
    assert RuleOrder[..|RuleOrder|] == RuleOrder;
  }

  // ---- The date bound ----

  /** A value of the date input: YYYY-MM-DD. */
  predicate IsIsoDate(s: string) {
    |s| == 10 && AllDigits(s[..4]) && s[4] == '-' && AllDigits(s[5..7]) && s[7] == '-' && AllDigits(s[8..])
  }

  lemma {:induction false} StrLessTrichotomy(a: string, b: string)
    ensures a == b || StrLess(a, b) || StrLess(b, a)
    decreases |a|
  {
    if a != [] && b != [] && a[0] == b[0] {
      StrLessTrichotomy(a[1..], b[1..]);
      if a[1..] == b[1..] {
        assert a == [a[0]] + a[1..] && b == [b[0]] + b[1..];
      }
    }
  }

  /** Equal-length digit fields compare like their numbers, and are equal iff their numbers are. */
  lemma DigitFieldOrder(x: string, y: string)
    requires |x| == |y| && AllDigits(x) && AllDigits(y)
    ensures StrLess(x, y) <==> ParseNat(x) < ParseNat(y)
    ensures x == y <==> ParseNat(x) == ParseNat(y)
  {
    StrLessIsNumericOrder(x, y);
    StrLessIsNumericOrder(y, x);
    StrLessTrichotomy(x, y);
  }

  /** For a well-formed date the string test compares year, then month, then day, as text. */
  lemma DateTooLateByFields(s: string)
    requires IsIsoDate(s)
    ensures DateTooLate(s) <==>
      StrLess("9999", s[..4]) || (s[..4] == "9999" &&
        (StrLess("09", s[5..7]) || (s[5..7] == "09" && StrLess("09", s[8..]))))
  {
    var b := DateBound;
    var ys, ms, ds := s[..4], s[5..7], s[8..];
    assert s == ys + ([s[4]] + (ms + ([s[7]] + ds)));
    assert b == "9999" + (['-'] + ("09" + (['-'] + "09")));
    StrLessAppend("9999", ['-'] + ("09" + (['-'] + "09")), ys, [s[4]] + (ms + ([s[7]] + ds)));
    StrLessAppend(['-'], "09" + (['-'] + "09"), [s[4]], ms + ([s[7]] + ds));
    StrLessAppend("09", ['-'] + "09", ms, [s[7]] + ds);
    StrLessAppend(['-'], "09", [s[7]], ds);
    assert !StrLess(['-'], ['-']);
  }

  /** For a well-formed date, the string test is the chronological test "later than 9 Sept 9999". */
  lemma DateBoundIsChronological(s: string)
    requires IsIsoDate(s)
    ensures DateTooLate(s) <==>
      var y, m, d := ParseNat(s[..4]), ParseNat(s[5..7]), ParseNat(s[8..]);
      y > 9999 || (y == 9999 && (m > 9 || (m == 9 && d > 9)))
  {
    assert ParseNat("9999") == 9999 by {
      assert "9999"[..3] == "999" && "999"[..2] == "99" && "99"[..1] == "9" && "9"[..0] == "";
    }
    assert ParseNat("09") == 9 by {
      assert "09"[..1] == "0" && "0"[..0] == "";
    }
    DateTooLateByFields(s);
    DigitFieldOrder("9999", s[..4]);
    DigitFieldOrder("09", s[5..7]);
    DigitFieldOrder("09", s[8..]);
  }

  /** A five-digit year sorts before "9999" as text, so such a date passes the bound. */
  lemma FiveDigitYearPassesBound()
    ensures !DateTooLate("10000-01-01")
    ensures Text(CommitmentDate) !in ValidationErrors(InitialForm.(commitmentDate := "10000-01-01"))
  {
    assert !StrLess(DateBound, "10000-01-01");
  }

  // ---- The payload sent to POST /processos ----

  /** What `getUserInfo` resolves to; its network lookups are not modelled. */
  datatype UserInfo = UserInfo(ip: string, location: string, device: string)

  datatype ProcessPayload = ProcessPayload(
    nomeProcesso: string,
    objeto: string,
    tipoContrato: string,
    etapaAtual: string,
    escolasImpactadas: int,
    estudantesImpactados: int,
    valorTotal: string,
    valorExecutado: string,
    percentualExecucao: real,
    dataOrdemServico: string,
    dataPrazoFinal: string,
    dataEmpenho: string,
    numeroEmpenho: string,
    tempoRestante: string,
    probabilidade: string,
    impacto: string,
    nivelRisco: string,
    justificativaRisco: string,
    userIp: string,
    userLocation: string,
    userDevice: string)

  /** The body of the request: form names mapped to the backend's, the percentage as a fraction. */
  function ToPayload(f: FormData, info: UserInfo): (p: ProcessPayload)
    ensures p.nomeProcesso == f.processName && p.objeto == f.objectKind
    ensures p.tipoContrato == f.contractType && p.etapaAtual == f.currentStage
    ensures p.escolasImpactadas == f.schoolsImpacted && p.estudantesImpactados == f.studentsImpacted
    ensures p.valorTotal == f.totalValue && p.valorExecutado == f.executedValue
    ensures p.percentualExecucao * 100.0 == f.executionPercentage
    ensures p.dataOrdemServico == f.serviceOrderDate && p.dataPrazoFinal == f.deadlineDate
    ensures p.dataEmpenho == f.commitmentDate && p.numeroEmpenho == f.commitmentNumber
    ensures p.tempoRestante == f.remainingTime
    ensures p.probabilidade == f.probability && p.impacto == f.impact
    ensures p.nivelRisco == f.riskLevel && p.justificativaRisco == f.riskJustification
    ensures p.userIp == info.ip && p.userLocation == info.location && p.userDevice == info.device
  {
    ProcessPayload(
      f.processName, f.objectKind, f.contractType, f.currentStage,
      f.schoolsImpacted, f.studentsImpacted, f.totalValue, f.executedValue,
      f.executionPercentage / 100.0,
      f.serviceOrderDate, f.deadlineDate, f.commitmentDate, f.commitmentNumber,
      f.remainingTime, f.probability, f.impact, f.riskLevel, f.riskJustification,
      info.ip, info.location, info.device)
  }

  /** Reads a payload back into the draft it carries. */
  function FromPayload(p: ProcessPayload): FormData {
    FormData(
      p.nomeProcesso, p.objeto, p.tipoContrato, p.etapaAtual,
      p.escolasImpactadas, p.estudantesImpactados, p.valorTotal, p.valorExecutado,
      p.percentualExecucao * 100.0,
      p.dataOrdemServico, p.dataPrazoFinal, p.dataEmpenho, p.numeroEmpenho,
      p.nivelRisco, p.justificativaRisco, p.probabilidade, p.impacto, p.tempoRestante)
  }

  /** No field of the draft is lost or swapped at the boundary, and the provenance is attached as given. */
  lemma PayloadRoundTrip(f: FormData, info: UserInfo)
    ensures FromPayload(ToPayload(f, info)) == f
    ensures var p := ToPayload(f, info); p.userIp == info.ip && p.userLocation == info.location && p.userDevice == info.device
  {
  }

  // ---- The contract-type select ----

  datatype SelectOption = SelectOption(caption: string, value: string)

  /** The options after the "Selecione uma opção" placeholder; four labels share one value. */
  const ContractTypeOptions: seq<SelectOption> := [
    SelectOption("Pregão", "Pregão"),
    SelectOption("Contratação Direta", "Contratação Direta"),
    SelectOption("Inexigibilidade", "Inexigibilidade"),
    SelectOption("Adesão a ATA", "Adesão a ATA"),
    SelectOption("Termo de Ajuste", "Adesão a ATA"),
    SelectOption("Apostilamento", "Adesão a ATA"),
    SelectOption("Convê", "Adesão a ATA"),
    SelectOption("Outros", "Outros")]

  function OptionValues(options: seq<SelectOption>): (vs: set<string>)
    ensures forall i :: 0 <= i < |options| ==> options[i].value in vs
    ensures forall v :: v in vs ==> exists i :: 0 <= i < |options| && options[i].value == v
  {
    set i | 0 <= i < |options| :: options[i].value
  }

  /** Eight labels, five distinct submitted values. */
  lemma ContractTypeValueCount()
    ensures |ContractTypeOptions| == 8
    ensures OptionValues(ContractTypeOptions) == {"Pregão", "Contratação Direta", "Inexigibilidade", "Adesão a ATA", "Outros"}
    ensures |OptionValues(ContractTypeOptions)| == 5
  {
    var vs := OptionValues(ContractTypeOptions);
    assert ContractTypeOptions[0].value in vs && ContractTypeOptions[1].value in vs;
    assert ContractTypeOptions[2].value in vs && ContractTypeOptions[3].value in vs;
    assert ContractTypeOptions[7].value in vs;
  }

  // ---- The page ----

  /** What one press of the submit button leads to. */
  datatype SubmitStep =
    | Ignored                                 // a submission is already in flight
    | Rejected(errors: map<Field, string>)   // validation failed; nothing is sent
    | Sending(payload: ProcessPayload)        // the request is in flight

  const CreatedMessage := "Processo cadastrado com sucesso!"
  const SendFailedMessage := "Erro ao enviar os dados."

  /** The toast for the backend's reply to the POST. */
  function SubmitNotice(reply: HttpReply): (n: Notice)
    ensures n.Success? <==> reply.Answered? && reply.ok
    ensures n == Failure(SendFailedMessage) <==> reply.Unreachable? || (!reply.ok && reply.json.None?)
  {
    match reply
    case Unreachable => Failure(SendFailedMessage)
    case Answered(ok, json) =>
      if ok then Success(CreatedMessage)
      else match json
        case None => Failure(SendFailedMessage)
        case Some(body) => Failure("Erro ao cadastrar o processo: " + Or(body.message, "Erro desconhecido"))
  }

  class ProcessFormPage {
    var data: FormData
    var isSubmitting: bool
    var errors: map<Field, string>

    constructor ()
      ensures data == InitialForm && !isSubmitting && errors == map[]
    {
      data := InitialForm;
      isSubmitting := false;
      errors := map[];
    }

    method HandleChange(name: TextField, value: string)
      modifies this
      ensures data == ChangeField(old(data), name, value)
      ensures isSubmitting == old(isSubmitting) && errors == old(errors)
    {
      data := ChangeField(data, name, value);
    }

    method HandleNumberChange(name: NumberField, value: int)
      modifies this
      ensures data == ChangeNumber(old(data), name, value)
      ensures isSubmitting == old(isSubmitting) && errors == old(errors)
    {
      data := ChangeNumber(data, name, value);
    }

    /** The effect that runs whenever `serviceOrderDate` changes. */
    method SyncRemainingTime(diff: DayDiff)
      modifies this
      ensures data == RefreshRemainingTime(old(data), diff)
      ensures isSubmitting == old(isSubmitting) && errors == old(errors)
    {
      if data.serviceOrderDate != "" {
        data := data.(remainingTime := RemainingLabel(diff));
      } else {
        data := data.(remainingTime := "");
      }
    }

    /**
     * `handleSubmit` up to the request: the guard, the validation, and for a
     * valid draft the payload built with the provenance `info`.
     */
    method BeginSubmit(info: UserInfo) returns (step: SubmitStep)
      modifies this
      ensures old(isSubmitting) ==> step == Ignored && isSubmitting && data == old(data) && errors == old(errors)
      ensures !old(isSubmitting) ==> data == old(data) && errors == ValidationErrors(old(data))
      ensures !old(isSubmitting) && errors == map[] ==> step == Sending(ToPayload(old(data), info)) && isSubmitting
      ensures !old(isSubmitting) && errors != map[] ==> step == Rejected(errors) && !isSubmitting
    {
      if isSubmitting {
        return Ignored;
      }
      isSubmitting := true;
      var validationErrors := Validate(ChecksOf(data));
      errors := validationErrors;
      if validationErrors == map[] {
        step := Sending(ToPayload(data, info));
      } else {
        step := Rejected(validationErrors);
        isSubmitting := false;
      }
    }

    /** `handleSubmit` after the reply: reset on success, draft kept on failure, flag cleared in `finally`. */
    method CompleteSubmit(reply: HttpReply) returns (notice: Notice)
      modifies this
      ensures !isSubmitting
      ensures notice == SubmitNotice(reply)
      ensures reply.Answered? && reply.ok ==> data == InitialForm && errors == map[]
      ensures !(reply.Answered? && reply.ok) ==> data == old(data) && errors == old(errors)
    {
      notice := SubmitNotice(reply);
      if reply.Answered? && reply.ok {
        data := InitialForm;
        errors := map[];
      }
      isSubmitting := false;
    }
  }
}
