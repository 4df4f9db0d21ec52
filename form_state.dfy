/** The two form updaters of App.tsx: `updateState` replaces one top-level
    field of the form record, `updateJob` one field of one job. Both build a
    fresh record from the previous one (object spread); nothing is mutated. */
module FormState {
  import opened AppTypes

  /** The top-level fields `updateState` is called with */
  datatype StateKey =
    | StartDate | EndDate | UpfrontCost | HousingCost | WeeklyLivingCost
    | TravelCost | PurchaseCost | StateTaxRate | IsFicaExempt | IncludeOvertime

  /** A value of a top-level field: typed text or a toggle */
  datatype FieldValue = Text(text: string) | Flag(flag: bool)

  datatype JobKey = Job1 | Job2

  datatype JobField = Wage | Hours

  predicate IsFlagKey(key: StateKey) {
    key == IsFicaExempt || key == IncludeOvertime
  }

  /** `value` has the type the record declares for `key` */
  predicate Fits(key: StateKey, value: FieldValue) {
    IsFlagKey(key) <==> value.Flag?
  }

  /** `state[key]` */
  function Lookup(s: AppState, key: StateKey): (v: FieldValue)
    ensures Fits(key, v)
  {
    match key
    case StartDate => Text(s.startDate)
    case EndDate => Text(s.endDate)
    case UpfrontCost => Text(s.upfrontCost)
    case HousingCost => Text(s.housingCost)
    case WeeklyLivingCost => Text(s.weeklyLivingCost)
    case TravelCost => Text(s.travelCost)
    case PurchaseCost => Text(s.purchaseCost)
    case StateTaxRate => Text(s.stateTaxRate)
    case IsFicaExempt => Flag(s.isFicaExempt)
    case IncludeOvertime => Flag(s.includeOvertime)
  }

  /** `state[job]` */
  function JobOf(s: AppState, job: JobKey): JobData {
    match job
    case Job1 => s.job1
    case Job2 => s.job2
  }

  /** `state[job][field]` */
  function JobLookup(s: AppState, job: JobKey, field: JobField): string {
    match field
    case Wage => JobOf(s, job).wage
    case Hours => JobOf(s, job).hours
  }

  /** A form record is nothing but its top-level fields and its job fields:
      two records that agree on every `Lookup` and `JobLookup` are equal.
      This is what makes the frame clauses of the updaters complete. */
  lemma StateDeterminedByFields(s: AppState, t: AppState)
    requires forall k :: Lookup(s, k) == Lookup(t, k)
    requires forall j, f :: JobLookup(s, j, f) == JobLookup(t, j, f)
    ensures s == t
  {
    assert Lookup(s, StartDate) == Lookup(t, StartDate);
    assert Lookup(s, EndDate) == Lookup(t, EndDate);
    assert Lookup(s, UpfrontCost) == Lookup(t, UpfrontCost);
    assert Lookup(s, HousingCost) == Lookup(t, HousingCost);
    assert Lookup(s, WeeklyLivingCost) == Lookup(t, WeeklyLivingCost);
    assert Lookup(s, TravelCost) == Lookup(t, TravelCost);
    assert Lookup(s, PurchaseCost) == Lookup(t, PurchaseCost);
    assert Lookup(s, StateTaxRate) == Lookup(t, StateTaxRate);
    assert Lookup(s, IsFicaExempt) == Lookup(t, IsFicaExempt);
    assert Lookup(s, IncludeOvertime) == Lookup(t, IncludeOvertime);
    assert JobLookup(s, Job1, Wage) == JobLookup(t, Job1, Wage);
    assert JobLookup(s, Job1, Hours) == JobLookup(t, Job1, Hours);
    assert JobLookup(s, Job2, Wage) == JobLookup(t, Job2, Wage);
    assert JobLookup(s, Job2, Hours) == JobLookup(t, Job2, Hours);
  }

  /** `updateState(key, value)`: `{ ...prev, [key]: value }` */
  function UpdateState(s: AppState, key: StateKey, value: FieldValue): (r: AppState)
    requires Fits(key, value)
    ensures Lookup(r, key) == value
    ensures forall k :: k != key ==> Lookup(r, k) == Lookup(s, k)
    ensures forall j, f :: JobLookup(r, j, f) == JobLookup(s, j, f)
  {
    match key
    case StartDate => s.(startDate := value.text)
    case EndDate => s.(endDate := value.text)
    case UpfrontCost => s.(upfrontCost := value.text)
    case HousingCost => s.(housingCost := value.text)
    case WeeklyLivingCost => s.(weeklyLivingCost := value.text)
    case TravelCost => s.(travelCost := value.text)
    case PurchaseCost => s.(purchaseCost := value.text)
    case StateTaxRate => s.(stateTaxRate := value.text)
    case IsFicaExempt => s.(isFicaExempt := value.flag)
    case IncludeOvertime => s.(includeOvertime := value.flag)
  }

  /** `updateJob(job, field, value)`: `{ ...prev, [job]: { ...prev[job], [field]: value } }` */
  function UpdateJob(s: AppState, job: JobKey, field: JobField, value: string): (r: AppState)
    ensures JobLookup(r, job, field) == value
    ensures forall j, f :: (j, f) != (job, field) ==> JobLookup(r, j, f) == JobLookup(s, j, f)
    ensures forall k :: Lookup(r, k) == Lookup(s, k)
  {
    var current := JobOf(s, job);
    var updated := match field
      case Wage => current.(wage := value)
      case Hours => current.(hours := value);
    match job
    case Job1 => s.(job1 := updated)
    case Job2 => s.(job2 := updated)
  }

  /** Writing back the value a field already holds gives the same record */
  lemma UpdateStateWithCurrentValue(s: AppState, key: StateKey)
    ensures UpdateState(s, key, Lookup(s, key)) == s
  {
  }

  /** Two updates of the same field: the second one wins */
  lemma UpdateStateLastWriteWins(s: AppState, key: StateKey, a: FieldValue, b: FieldValue)
    requires Fits(key, a) && Fits(key, b)
    ensures UpdateState(UpdateState(s, key, a), key, b) == UpdateState(s, key, b)
  {
  }

  /** Two job updates of the same job field: the second one wins */
  lemma UpdateJobLastWriteWins(s: AppState, job: JobKey, field: JobField, a: string, b: string)
    ensures UpdateJob(UpdateJob(s, job, field, a), job, field, b) == UpdateJob(s, job, field, b)
  {
  }
}
