/**
  The record built by `user_input_features` in bleeding-risk-predictor.py: the
  dictionary of 28 named entries that is handed to pandas.

  The 28 keys are a closed enumeration `Feature`; `Name` gives the column name
  each key carries in the dictionary, and `Entry` gives the value the
  dictionary holds under it. `BuildRecord` is the dictionary itself, keyed by
  name.
 */
module Record {
  import opened Wrappers
  import opened Form

  /** The keys of the record, in the order the dictionary lists them. */
  datatype Feature =
    | ApacheIvScore | Gcs | AlbuminMax | HematocritMin | Anemia | PlateletMin
    | PttMax | CoagulationDysfunction | PtMax | BunMax | RespiratoryRate
    | NibpSystolic | NibpDiastolic | Gender | Caucasian | MedsurgIcu | CardiacIcu
    | NeuroIcu | GastrointestinalCondition | Trauma | HistoryOfBleed | HistoryOfVte
    | Sepsis | VascularDisorders | AcuteCoronarySyndrome | RespiratoryFailure
    | VasopressorsInotropicAgents | StressUlcerDrug

  /** The column name under which a feature appears in the record. */
  function Name(f: Feature): string {
    match f
    case ApacheIvScore => "apache_iv_score"
    case Gcs => "gcs"
    case AlbuminMax => "albumin_max"
    case HematocritMin => "hematocrit_min"
    case Anemia => "anemia"
    case PlateletMin => "platelet_min"
    case PttMax => "ptt_max"
    case CoagulationDysfunction => "coagulation_dysfunction"
    case PtMax => "pt_max"
    case BunMax => "bun_max"
    case RespiratoryRate => "respiratoryrate"
    case NibpSystolic => "nibp_systolic"
    case NibpDiastolic => "nibp_diastolic"
    case Gender => "gender"
    case Caucasian => "caucasian"
    case MedsurgIcu => "medsurg_icu"
    case CardiacIcu => "cardiac_icu"
    case NeuroIcu => "neuro_icu"
    case GastrointestinalCondition => "gastrointestinal_condition"
    case Trauma => "trauma"
    case HistoryOfBleed => "history_of_bleed"
    case HistoryOfVte => "history_of_vte"
    case Sepsis => "sepsis"
    case VascularDisorders => "vascular_disorders"
    case AcuteCoronarySyndrome => "acute_coronary_syndrome"
    case RespiratoryFailure => "respiratory_failure"
    case VasopressorsInotropicAgents => "vasopressors_inotropic_agents"
    case StressUlcerDrug => "stress_ulcer_drug"
  }

  /** The value the record holds under a feature: the right-hand sides of the dictionary. */
  function Entry(r: RawInput, f: Feature): real {
    match f
    case ApacheIvScore => r.apacheIvScore as real
    case Gcs => r.gcs as real
    case AlbuminMax => r.albuminMax
    case HematocritMin => r.hematocritMin as real
    case Anemia => EncodeYesNo(r.anemia) as real
    case PlateletMin => r.plateletMin as real
    case PttMax => r.pttMax as real
    case CoagulationDysfunction => DeriveCoagulationDysfunction(r.pttMax, r.ptMax) as real
    case PtMax => r.ptMax as real
    case BunMax => r.bunMax as real
    case RespiratoryRate => r.respiratoryRate as real
    case NibpSystolic => r.nibpSystolic as real
    case NibpDiastolic => r.nibpDiastolic as real
    case Gender => EncodeGender(r.gender) as real
    case Caucasian => EncodeYesNo(r.caucasian) as real
    case MedsurgIcu => EncodeYesNo(r.medsurgIcu) as real
    case CardiacIcu => EncodeYesNo(r.cardiacIcu) as real
    case NeuroIcu => EncodeYesNo(r.neuroIcu) as real
    case GastrointestinalCondition => EncodeYesNo(r.gastrointestinalCondition) as real
    case Trauma => EncodeYesNo(r.trauma) as real
    case HistoryOfBleed => EncodeYesNo(r.historyOfBleed) as real
    case HistoryOfVte => EncodeYesNo(r.historyOfVte) as real
    case Sepsis => EncodeYesNo(r.sepsis) as real
    case VascularDisorders => EncodeYesNo(r.vascularDisorders) as real
    case AcuteCoronarySyndrome => 0.0
    case RespiratoryFailure => DeriveRespiratoryFailure(r.respiratoryRate, r.nibpSystolic) as real
    case VasopressorsInotropicAgents => 0.0
    case StressUlcerDrug => EncodeYesNo(r.stressUlcerDrug) as real
  }

  /** The raw inputs an entry is computed from (empty for the hard-wired entries). */
  function Reads(f: Feature): set<Feature> {
    match f
    case ApacheIvScore => {ApacheIvScore}
    case Gcs => {Gcs}
    case AlbuminMax => {AlbuminMax}
    case HematocritMin => {HematocritMin}
    case Anemia => {Anemia}
    case PlateletMin => {PlateletMin}
    case PttMax => {PttMax}
    case CoagulationDysfunction => {PttMax, PtMax}
    case PtMax => {PtMax}
    case BunMax => {BunMax}
    case RespiratoryRate => {RespiratoryRate}
    case NibpSystolic => {NibpSystolic}
    case NibpDiastolic => {NibpDiastolic}
    case Gender => {Gender}
    case Caucasian => {Caucasian}
    case MedsurgIcu => {MedsurgIcu}
    case CardiacIcu => {CardiacIcu}
    case NeuroIcu => {NeuroIcu}
    case GastrointestinalCondition => {GastrointestinalCondition}
    case Trauma => {Trauma}
    case HistoryOfBleed => {HistoryOfBleed}
    case HistoryOfVte => {HistoryOfVte}
    case Sepsis => {Sepsis}
    case VascularDisorders => {VascularDisorders}
    case AcuteCoronarySyndrome => {}
    case RespiratoryFailure => {RespiratoryRate, NibpSystolic}
    case VasopressorsInotropicAgents => {}
    case StressUlcerDrug => {StressUlcerDrug}
  }

  /** Two forms agree on the raw input behind a collected feature. */
  predicate SameInput(r: RawInput, r': RawInput, f: Feature) {
    match f
    case ApacheIvScore => r.apacheIvScore == r'.apacheIvScore
    case Gcs => r.gcs == r'.gcs
    case AlbuminMax => r.albuminMax == r'.albuminMax
    case HematocritMin => r.hematocritMin == r'.hematocritMin
    case Anemia => r.anemia == r'.anemia
    case PlateletMin => r.plateletMin == r'.plateletMin
    case PttMax => r.pttMax == r'.pttMax
    case CoagulationDysfunction => true
    case PtMax => r.ptMax == r'.ptMax
    case BunMax => r.bunMax == r'.bunMax
    case RespiratoryRate => r.respiratoryRate == r'.respiratoryRate
    case NibpSystolic => r.nibpSystolic == r'.nibpSystolic
    case NibpDiastolic => r.nibpDiastolic == r'.nibpDiastolic
    case Gender => r.gender == r'.gender
    case Caucasian => r.caucasian == r'.caucasian
    case MedsurgIcu => r.medsurgIcu == r'.medsurgIcu
    case CardiacIcu => r.cardiacIcu == r'.cardiacIcu
    case NeuroIcu => r.neuroIcu == r'.neuroIcu
    case GastrointestinalCondition => r.gastrointestinalCondition == r'.gastrointestinalCondition
    case Trauma => r.trauma == r'.trauma
    case HistoryOfBleed => r.historyOfBleed == r'.historyOfBleed
    case HistoryOfVte => r.historyOfVte == r'.historyOfVte
    case Sepsis => r.sepsis == r'.sepsis
    case VascularDisorders => r.vascularDisorders == r'.vascularDisorders
    case AcuteCoronarySyndrome => true
    case RespiratoryFailure => true
    case VasopressorsInotropicAgents => true
    case StressUlcerDrug => r.stressUlcerDrug == r'.stressUlcerDrug
  }

  /** A closed range of values. */
  datatype Interval = Interval(lo: real, hi: real)

  /** The declared domain of every entry: the widget bounds for numbers, [0, 1] for the rest. */
  function Domain(f: Feature): Interval {
    match f
    case ApacheIvScore => Interval(0.0, 200.0)
    case Gcs => Interval(3.0, 15.0)
    case AlbuminMax => Interval(1.0, 6.0)
    case HematocritMin => Interval(10.0, 60.0)
    case PlateletMin => Interval(10.0, 500.0)
    case PttMax => Interval(20.0, 200.0)
    case PtMax => Interval(10.0, 50.0)
    case BunMax => Interval(5.0, 100.0)
    case RespiratoryRate => Interval(5.0, 50.0)
    case NibpSystolic => Interval(50.0, 250.0)
    case NibpDiastolic => Interval(30.0, 150.0)
    case _ => Interval(0.0, 1.0)
  }

  /** The selection behind a "No"/"Yes" entry. */
  function Selection(r: RawInput, f: Feature): YesNo
    requires IsYesNo(f)
  {
    match f
    case Anemia => r.anemia
    case Caucasian => r.caucasian
    case MedsurgIcu => r.medsurgIcu
    case CardiacIcu => r.cardiacIcu
    case NeuroIcu => r.neuroIcu
    case GastrointestinalCondition => r.gastrointestinalCondition
    case Trauma => r.trauma
    case HistoryOfBleed => r.historyOfBleed
    case HistoryOfVte => r.historyOfVte
    case Sepsis => r.sepsis
    case VascularDisorders => r.vascularDisorders
    case StressUlcerDrug => r.stressUlcerDrug
  }

  /** The 12 entries that hold a "No"/"Yes" selection. */
  predicate IsYesNo(f: Feature) {
    f in {Anemia, Caucasian, MedsurgIcu, CardiacIcu, NeuroIcu, GastrointestinalCondition,
          Trauma, HistoryOfBleed, HistoryOfVte, Sepsis, VascularDisorders, StressUlcerDrug}
  }

  /** The entries the operator enters directly (all but the derived and hard-wired ones). */
  predicate Collected(f: Feature) {
    f !in {CoagulationDysfunction, RespiratoryFailure, AcuteCoronarySyndrome,
           VasopressorsInotropicAgents}
  }

  /** The entries that are not a number passed through: encoded, derived or hard-wired. */
  predicate IsBinary(f: Feature) {
    IsYesNo(f) || !Collected(f) || f == Feature.Gender
  }

  /** The 28 keys of the dictionary. */
  const AllFeatures: set<Feature> := {
    ApacheIvScore, Gcs, AlbuminMax, HematocritMin, Anemia, PlateletMin, PttMax,
    CoagulationDysfunction, PtMax, BunMax, RespiratoryRate, NibpSystolic,
    NibpDiastolic, Gender, Caucasian, MedsurgIcu, CardiacIcu, NeuroIcu,
    GastrointestinalCondition, Trauma, HistoryOfBleed, HistoryOfVte, Sepsis,
    VascularDisorders, AcuteCoronarySyndrome, RespiratoryFailure,
    VasopressorsInotropicAgents, StressUlcerDrug}

  // ---------------------------------------------------------------------
  // The record as a dictionary

  /**
    The feature a column name denotes, if any. This is only a proof aid for
    `NameInjective`: it repeats the 28 names grouped by length so that the
    solver tells them apart cheaply, and its converse is not stated.
   */
  function FeatureNamed(s: string): Option<Feature> {
    if |s| == 3 then
      if s == "gcs" then Some(Gcs) else
      None
    else if |s| == 6 then
      if s == "anemia" then Some(Anemia) else
      if s == "pt_max" then Some(PtMax) else
      if s == "gender" then Some(Feature.Gender) else
      if s == "trauma" then Some(Trauma) else
      if s == "sepsis" then Some(Sepsis) else
      None
    else if |s| == 7 then
      if s == "ptt_max" then Some(PttMax) else
      if s == "bun_max" then Some(BunMax) else
      None
    else if |s| == 9 then
      if s == "caucasian" then Some(Caucasian) else
      if s == "neuro_icu" then Some(NeuroIcu) else
      None
    else if |s| == 11 then
      if s == "albumin_max" then Some(AlbuminMax) else
      if s == "medsurg_icu" then Some(MedsurgIcu) else
      if s == "cardiac_icu" then Some(CardiacIcu) else
      None
    else if |s| == 12 then
      if s == "platelet_min" then Some(PlateletMin) else
      None
    else if |s| == 13 then
      if s == "nibp_systolic" then Some(NibpSystolic) else
      None
    else if |s| == 14 then
      if s == "hematocrit_min" then Some(HematocritMin) else
      if s == "nibp_diastolic" then Some(NibpDiastolic) else
      if s == "history_of_vte" then Some(HistoryOfVte) else
      None
    else if |s| == 15 then
      if s == "apache_iv_score" then Some(ApacheIvScore) else
      if s == "respiratoryrate" then Some(RespiratoryRate) else
      None
    else if |s| == 16 then
      if s == "history_of_bleed" then Some(HistoryOfBleed) else
      None
    else if |s| == 17 then
      if s == "stress_ulcer_drug" then Some(StressUlcerDrug) else
      None
    else if |s| == 18 then
      if s == "vascular_disorders" then Some(VascularDisorders) else
      None
    else if |s| == 19 then
      if s == "respiratory_failure" then Some(RespiratoryFailure) else
      None
    else if |s| == 23 then
      if s == "coagulation_dysfunction" then Some(CoagulationDysfunction) else
      if s == "acute_coronary_syndrome" then Some(AcuteCoronarySyndrome) else
      None
    else if |s| == 26 then
      if s == "gastrointestinal_condition" then Some(GastrointestinalCondition) else
      None
    else if |s| == 29 then
      if s == "vasopressors_inotropic_agents" then Some(VasopressorsInotropicAgents) else
      None
    else None
  }

  /** Every column name denotes its own feature. */
  lemma FeatureNamedName(f: Feature)
    ensures FeatureNamed(Name(f)) == Some(f)
  {
    match f {
      case ApacheIvScore =>
      case Gcs =>
      case AlbuminMax =>
      case HematocritMin =>
      case Anemia =>
      case PlateletMin =>
      case PttMax =>
      case CoagulationDysfunction =>
      case PtMax =>
      case BunMax =>
      case RespiratoryRate =>
      case NibpSystolic =>
      case NibpDiastolic =>
      case Gender =>
      case Caucasian =>
      case MedsurgIcu =>
      case CardiacIcu =>
      case NeuroIcu =>
      case GastrointestinalCondition =>
      case Trauma =>
      case HistoryOfBleed =>
      case HistoryOfVte =>
      case Sepsis =>
      case VascularDisorders =>
      case AcuteCoronarySyndrome =>
      case RespiratoryFailure =>
      case VasopressorsInotropicAgents =>
      case StressUlcerDrug =>
    }
  }

  /** Distinct keys carry distinct column names. */
  lemma NameInjective(f: Feature, g: Feature)
    ensures Name(f) == Name(g) ==> f == g
  {
    FeatureNamedName(f);
    FeatureNamedName(g);
  }

  /** The dictionary has an entry for every key. */
  lemma AllFeaturesComplete()
    ensures forall f :: f in AllFeatures
  {
    forall f ensures f in AllFeatures {
      match f {
        case ApacheIvScore =>
        case Gcs =>
        case AlbuminMax =>
        case HematocritMin =>
        case Anemia =>
        case PlateletMin =>
        case PttMax =>
        case CoagulationDysfunction =>
        case PtMax =>
        case BunMax =>
        case RespiratoryRate =>
        case NibpSystolic =>
        case NibpDiastolic =>
        case Gender =>
        case Caucasian =>
        case MedsurgIcu =>
        case CardiacIcu =>
        case NeuroIcu =>
        case GastrointestinalCondition =>
        case Trauma =>
        case HistoryOfBleed =>
        case HistoryOfVte =>
        case Sepsis =>
        case VascularDisorders =>
        case AcuteCoronarySyndrome =>
        case RespiratoryFailure =>
        case VasopressorsInotropicAgents =>
        case StressUlcerDrug =>
      }
    }
  }

  /** The dictionary literal: one entry per feature, under the feature's column name. */
  function Dictionary(r: RawInput): map<string, real> {
    AllFeaturesComplete();
    assert forall f, g :: Name(f) == Name(g) ==> f == g by {
      forall f, g ensures Name(f) == Name(g) ==> f == g { NameInjective(f, g); }
    }
    map f | f in AllFeatures :: Name(f) := Entry(r, f)
  }

  /** The dictionary literal holds each feature's entry under that feature's name. */
  lemma DictionaryAt(r: RawInput, f: Feature)
    ensures Name(f) in Dictionary(r) && Dictionary(r)[Name(f)] == Entry(r, f)
  {
    AllFeaturesComplete();
    var m := Dictionary(r);
    assert f in AllFeatures;
    assert Name(f) in m;
    var g :| g in AllFeatures && Name(g) == Name(f) && m[Name(f)] == Entry(r, g);
    NameInjective(f, g);
  }

  /** The record for one patient, keyed by column name: its keys are exactly the 28 names, each holding its feature's entry. */
  function BuildRecord(r: RawInput): (m: map<string, real>)
    ensures forall f :: Name(f) in m && m[Name(f)] == Entry(r, f)
    ensures forall k :: k in m ==> exists f :: Name(f) == k
  {
    assert forall f :: Name(f) in Dictionary(r) && Dictionary(r)[Name(f)] == Entry(r, f) by {
      forall f ensures Name(f) in Dictionary(r) && Dictionary(r)[Name(f)] == Entry(r, f) {
        DictionaryAt(r, f);
      }
    }
    Dictionary(r)
  }

  // ---------------------------------------------------------------------
  // What the entries hold

  /** A "No"/"Yes" entry is 1 exactly when "Yes" was selected and 0 exactly when "No" was. */
  lemma YesNoEncoding(r: RawInput, f: Feature)
    requires IsYesNo(f)
    ensures Entry(r, f) == 1.0 <==> Selection(r, f) == Yes
    ensures Entry(r, f) == 0.0 <==> Selection(r, f) == No
  {
  }

  /** The gender entry is 1 exactly for "Female" and 0 exactly for "Male". */
  lemma GenderEncoding(r: RawInput)
    ensures Entry(r, Feature.Gender) == 1.0 <==> r.gender == Female
    ensures Entry(r, Feature.Gender) == 0.0 <==> r.gender == Male
  {
  }

  /** The derived entries follow the two strict clinical rules. */
  lemma DerivedEntries(r: RawInput)
    ensures Entry(r, CoagulationDysfunction) == 1.0 <==> r.pttMax > 40 || r.ptMax > 14
    ensures Entry(r, CoagulationDysfunction) == 0.0 <==> r.pttMax <= 40 && r.ptMax <= 14
    ensures Entry(r, RespiratoryFailure) == 1.0 <==> r.respiratoryRate > 24 || r.nibpSystolic < 90
    ensures Entry(r, RespiratoryFailure) == 0.0 <==> r.respiratoryRate <= 24 && r.nibpSystolic >= 90
  {
  }

  /** The two entries no widget collects are 0 whatever the form holds. */
  lemma HardWiredEntries(r: RawInput)
    ensures Entry(r, AcuteCoronarySyndrome) == 0.0
    ensures Entry(r, VasopressorsInotropicAgents) == 0.0
  {
  }

  /** Every encoded, derived or hard-wired entry is 0 or 1. */
  lemma BinaryEntries(r: RawInput, f: Feature)
    requires IsBinary(f)
    ensures Entry(r, f) == 0.0 || Entry(r, f) == 1.0
  {
  }

  /** Within the widget bounds, every entry lies in its declared domain. */
  lemma EntryWithinDomain(r: RawInput, f: Feature)
    requires WithinWidgetBounds(r)
    ensures Domain(f).lo <= Entry(r, f) <= Domain(f).hi
  {
  }

  /** A collected entry keeps its input exactly: equal entries mean equal inputs. */
  lemma CollectedEntryFaithful(r: RawInput, r': RawInput, f: Feature)
    requires Collected(f)
    ensures Entry(r, f) == Entry(r', f) <==> SameInput(r, r', f)
  {
  }

  /** An entry depends on nothing but the inputs it reads. */
  lemma Locality(r: RawInput, r': RawInput, f: Feature)
    requires forall g :: g in Reads(f) ==> SameInput(r, r', g)
    ensures Entry(r, f) == Entry(r', f)
  {
    match f
    case CoagulationDysfunction =>
      assert SameInput(r, r', PttMax) && SameInput(r, r', PtMax);
    case RespiratoryFailure =>
      assert SameInput(r, r', RespiratoryRate) && SameInput(r, r', NibpSystolic);
    case AcuteCoronarySyndrome =>
    case VasopressorsInotropicAgents =>
    case _ =>
      assert SameInput(r, r', f);
  }

  /** Changing one input leaves every entry that does not read it unchanged. */
  lemma ChangeOneInput(r: RawInput, r': RawInput, g: Feature)
    requires Collected(g)
    requires forall h :: h != g ==> SameInput(r, r', h)
    ensures forall f :: g !in Reads(f) ==> Entry(r, f) == Entry(r', f)
  {
    forall f | g !in Reads(f) ensures Entry(r, f) == Entry(r', f) {
      Locality(r, r', f);
    }
  }

  // ---------------------------------------------------------------------
  // Worked examples on the default form

  /** The default form raises neither derived flag. */
  lemma DefaultFormFlags()
    ensures WithinWidgetBounds(Defaults)
    ensures Entry(Defaults, CoagulationDysfunction) == 0.0
    ensures Entry(Defaults, RespiratoryFailure) == 0.0
  {
  }

  /** Raising the PTT from 35 to 45 changes the PTT entry and raises the coagulation flag, nothing else. */
  lemma RaisedPttChangesTwoEntries()
    ensures Entry(Defaults, CoagulationDysfunction) == 0.0
    ensures Entry(Defaults.(pttMax := 45), CoagulationDysfunction) == 1.0
    ensures forall f :: Entry(Defaults, f) != Entry(Defaults.(pttMax := 45), f) <==>
                        f == PttMax || f == CoagulationDysfunction
  {
  }

  /** A respiratory rate of 30 with a systolic pressure of 85 raises the respiratory flag. */
  lemma TachypneaAndHypotensionRaiseFlag()
    ensures Entry(Defaults.(respiratoryRate := 30, nibpSystolic := 85), RespiratoryFailure) == 1.0
  {
  }
}
