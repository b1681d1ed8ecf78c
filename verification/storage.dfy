/**
 * The key-value persistence adapter over the device's asynchronous string store.
 * A value is written as the text its codec serialises it to and read back through
 * the codec's parser; JSON is the codec the app uses.
 */
module Storage {
  import opened Types

  /** The closed set of storage keys; only the first three hold data today. */
  datatype StorageKey = ClientsKey | EstimatesKey | PhotosKey | JobsKey | EmployeesKey | TimeEntriesKey | PayPeriodsKey

  /** The text each key is stored under. */
  function KeyName(k: StorageKey): string {
    match k
    case ClientsKey => "clients"
    case EstimatesKey => "estimates"
    case PhotosKey => "photos"
    case JobsKey => "jobs"
    case EmployeesKey => "employees"
    case TimeEntriesKey => "timeEntries"
    case PayPeriodsKey => "payPeriods"
  }

  /** The key a text names, if it is one of the seven key names. */
  function ParseKeyName(t: string): (r: Option<StorageKey>)
    ensures r.Some? ==> KeyName(r.value) == t
  {
    if t == "clients" then Some(ClientsKey)
    else if t == "estimates" then Some(EstimatesKey)
    else if t == "photos" then Some(PhotosKey)
    else if t == "jobs" then Some(JobsKey)
    else if t == "employees" then Some(EmployeesKey)
    else if t == "timeEntries" then Some(TimeEntriesKey)
    else if t == "payPeriods" then Some(PayPeriodsKey)
    else None
  }

  /** Distinct keys are stored under distinct names. */
  lemma KeyNamesDistinct(j: StorageKey, k: StorageKey)
    ensures KeyName(j) == KeyName(k) <==> j == k
  {
    assert ParseKeyName(KeyName(j)) == Some(j);
    assert ParseKeyName(KeyName(k)) == Some(k);
  }

  /**
   * How values of type T are written and read back: `serialize` is `JSON.stringify`,
   * `parse` is `JSON.parse`, with None for text it rejects.
   */
  datatype Codec<!T> = Codec(serialize: T -> string, parse: string -> Option<T>)

  /**
   * `loadItem(key, fallback)` against the store contents `entries`: the fallback when
   * the read itself fails (`readFailed`), when the key holds nothing, when it holds the
   * empty text, or when parsing fails; otherwise exactly what the stored text parses
   * to. It never fails.
   */
  function LoadItem<T>(entries: map<StorageKey, string>, key: StorageKey, readFailed: bool, fallback: T, parse: string -> Option<T>): (r: T)
    ensures readFailed ==> r == fallback
    ensures key !in entries ==> r == fallback
    ensures key in entries && entries[key] == "" ==> r == fallback
    ensures key in entries && parse(entries[key]).None? ==> r == fallback
    ensures !readFailed && key in entries && entries[key] != "" && parse(entries[key]).Some? ==> r == parse(entries[key]).value
  {
    if readFailed || key !in entries || entries[key] == "" then fallback
    else parse(entries[key]).GetOr(fallback)
  }

  /** The device's key-value store: the text held under each key that has been written. */
  class DeviceStore {
    var entries: map<StorageKey, string>

    constructor (initial: map<StorageKey, string>)
      ensures entries == initial
    {
      entries := initial;
    }

    /** `saveItem(key, value)`: overwrite `key` with the serialised value; every other key keeps its text. */
    method SaveItem<T>(key: StorageKey, value: T, serialize: T -> string)
      modifies this
      ensures entries == old(entries)[key := serialize(value)]
    {
      entries := entries[key := serialize(value)];
    }
  }

  /**
   * A save followed by a load of the same key yields the parse of the serialised
   * value (the fallback if that text is empty or does not parse), not necessarily
   * the value itself.
   */
  lemma SaveThenLoad<T>(entries: map<StorageKey, string>, key: StorageKey, value: T, fallback: T, codec: Codec<T>)
    ensures LoadItem(entries[key := codec.serialize(value)], key, false, fallback, codec.parse)
         == if codec.serialize(value) == "" then fallback else codec.parse(codec.serialize(value)).GetOr(fallback)
  {
  }

  /** When the codec round-trips a value to a non-empty text, saving then loading returns that value. */
  lemma SaveThenLoadRoundTrip<T>(entries: map<StorageKey, string>, key: StorageKey, value: T, fallback: T, codec: Codec<T>)
    requires codec.serialize(value) != "" && codec.parse(codec.serialize(value)) == Some(value)
    ensures LoadItem(entries[key := codec.serialize(value)], key, false, fallback, codec.parse) == value
  {
  }

  /** Saving under one key does not change what a load of any other key returns. */
  lemma SaveKeepsOtherKeys<T>(entries: map<StorageKey, string>, key: StorageKey, text: string, other: StorageKey, readFailed: bool, fallback: T, parse: string -> Option<T>)
    requires other != key
    ensures LoadItem(entries[key := text], other, readFailed, fallback, parse) == LoadItem(entries, other, readFailed, fallback, parse)
  {
  }
}
