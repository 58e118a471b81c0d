// The in-memory repositories of the two single-record entities, feature toggles
// and the Kilda configuration: adding refuses a second record.

module SingletonStore {
  import opened Wrappers

  /** The outcome of an add: the record is stored, or the constraint is violated. */
  datatype AddOutcome<D> = Added(records: seq<D>) | ConstraintViolation(message: string)

  /** The message of the constraint violation for a vertex of the given label. */
  function DuplicateMessage(frameLabel: string): string {
    "Unable to create " + frameLabel + " vertex with duplicate keys."
  }

  /**
   * Adding a record: refused while a record is stored, otherwise the record is the
   * only one stored.
   */
  function Add<D>(records: seq<D>, data: D, frameLabel: string): (r: AddOutcome<D>)
    ensures r.ConstraintViolation? <==> |records| > 0
    ensures r.Added? ==> r.records == [data] && |r.records| <= 1
    ensures r.ConstraintViolation? ==> r.message == DuplicateMessage(frameLabel)
  {
    if |records| > 0 then ConstraintViolation(DuplicateMessage(frameLabel)) else Added(records + [data])
  }
}

module InMemoryFeatureTogglesRepository {
  import opened Wrappers
  import opened SingletonStore

  /** The feature toggles as stored. */
  datatype FeatureTogglesData = FeatureTogglesData(toggles: map<string, bool>)

  class InMemoryFeatureTogglesRepository {
    const frameLabel: string
    var records: seq<FeatureTogglesData>

    ghost predicate Valid()
      reads this
    {
      |records| <= 1
    }

    constructor (frameLabel: string)
      ensures Valid() && this.frameLabel == frameLabel && records == []
    {
      this.frameLabel := frameLabel;
      records := [];
    }

    /** Adds the record unless one is stored; a refused add changes nothing. */
    method DoAdd(data: FeatureTogglesData) returns (r: Result<FeatureTogglesData, string>)
      requires Valid()
      modifies this`records
      ensures Valid()
      ensures r.Err? <==> |old(records)| > 0
      ensures r.Err? ==> records == old(records) && r.error == DuplicateMessage(frameLabel)
      ensures r.Ok? ==> records == [data] && r.value == data
    {
      match Add(records, data, frameLabel)
      case ConstraintViolation(message) =>
        r := Err(message);
      case Added(stored) =>
        records := stored;
        r := Ok(data);
    }
  }
}

module InMemoryKildaConfigurationRepository {
  import opened Wrappers
  import opened SingletonStore

  /** The Kilda configuration as stored. */
  datatype KildaConfigurationData = KildaConfigurationData(settings: map<string, string>)

  class InMemoryKildaConfigurationRepository {
    const frameLabel: string
    var records: seq<KildaConfigurationData>

    ghost predicate Valid()
      reads this
    {
      |records| <= 1
    }

    constructor (frameLabel: string)
      ensures Valid() && this.frameLabel == frameLabel && records == []
    {
      this.frameLabel := frameLabel;
      records := [];
    }

    /** Adds the record unless one is stored; a refused add changes nothing. */
    method DoAdd(data: KildaConfigurationData) returns (r: Result<KildaConfigurationData, string>)
      requires Valid()
      modifies this`records
      ensures Valid()
      ensures r.Err? <==> |old(records)| > 0
      ensures r.Err? ==> records == old(records) && r.error == DuplicateMessage(frameLabel)
      ensures r.Ok? ==> records == [data] && r.value == data
    {
      match Add(records, data, frameLabel)
      case ConstraintViolation(message) =>
        r := Err(message);
      case Added(stored) =>
        records := stored;
        r := Ok(data);
    }
  }
}
