/**
 * src/helpers.js: the `capitalize` string helper and the one-slot store
 * holding the last chat message that was published.
 *
 * The store is a single JSON file. Its file-system mechanics (existence
 * checks, directory creation, writing, unlinking) are reduced to the
 * three states the file can be in; `getToday` is an input string.
 */
module Helpers {
  import opened Wrappers
  import opened JsStrings

  /* ================== STRING ================== */

  /** A JavaScript argument as `capitalize` sees it: a string or anything else. */
  datatype Value = JsString(s: string) | NotAString

  /** `s` is in capitalised form: no lower-case first letter, no upper-case letter after it. */
  predicate IsCapitalized(s: string) {
    s != [] && !IsLowerCase(s[0]) && forall i :: 1 <= i < |s| ==> !IsUpperCase(s[i])
  }

  /**
   * `capitalize(str)`: "" for a non-string, otherwise the first character
   * upper-cased followed by the rest lower-cased. An empty string throws in
   * the source (`str[0]` is undefined), so it is excluded here.
   */
  function Capitalize(v: Value): (r: string)
    requires v.JsString? ==> v.s != []
    ensures v.NotAString? ==> r == ""
    ensures v.JsString? ==> |r| == |v.s| && IsCapitalized(r) && Lower(r) == Lower(v.s)
  {
    match v
    case NotAString => ""
    case JsString(s) => [UpperChar(s[0])] + Lower(s[1..])
  }

  /** A string already in capitalised form is left as it is. */
  lemma CapitalizeFixesCapitalized(s: string)
    requires IsCapitalized(s)
    ensures Capitalize(JsString(s)) == s
  {
  }

  /** `capitalize` is idempotent. */
  lemma CapitalizeIdempotent(s: string)
    requires s != []
    ensures Capitalize(JsString(Capitalize(JsString(s)))) == Capitalize(JsString(s))
  {
  }

  /* ================== STORAGE ================== */

  /**
   * The object handed to `saveLastMessage`: the three fields it reads, plus
   * whatever else the object carries (a Telegram `Message` has many more).
   */
  datatype Payload = Payload(
    messageId: Option<int>,
    isOutage: Option<bool>,
    publishedAt: Option<string>,
    otherFields: map<string, string>)

  /** The record written to the file. */
  datatype Record = Record(messageId: Option<int>, isOutage: Option<bool>, publishedAt: string)

  /** JavaScript falsiness of an optional string field (undefined or ""). */
  predicate Falsy(p: Option<string>): (r: bool)
    ensures p.None? ==> r
    ensures p == Some("") ==> r
    ensures r ==> p.None? || p == Some("")
  {
    p.None? || p.value == ""
  }

  /**
   * The record `saveLastMessage(arg)` writes. `None` is a call with no
   * argument (or `undefined`), which destructures the default `{}`.
   */
  function Shape(arg: Option<Payload>, today: string): (r: Record)
    ensures arg.None? ==> r == Record(None, None, today)
    ensures arg.Some? ==> r.messageId == arg.value.messageId && r.isOutage == arg.value.isOutage
    ensures arg.Some? && !Falsy(arg.value.publishedAt) ==> r.publishedAt == arg.value.publishedAt.value
    ensures arg.Some? && Falsy(arg.value.publishedAt) ==> r.publishedAt == today
  {
    match arg
    case None => Record(None, None, today)
    case Some(p) =>
      Record(p.messageId, p.isOutage, if Falsy(p.publishedAt) then today else p.publishedAt.value)
  }

  /** Only `message_id`, `isOutage` and `publishedAt` reach the file; other fields are dropped. */
  lemma ShapeDropsOtherFields(p: Payload, q: Payload, today: string)
    requires p.messageId == q.messageId && p.isOutage == q.isOutage && p.publishedAt == q.publishedAt
    ensures Shape(Some(p), today) == Shape(Some(q), today)
  {
  }

  /** Saving nothing writes the same record as saving an empty object. */
  lemma ShapeOfNoArgument(today: string, others: map<string, string>)
    ensures Shape(None, today) == Shape(Some(Payload(None, None, None, others)), today)
  {
  }

  /** The state of the last-message file. */
  datatype FileState =
    | Missing               // never written, or deleted
    | Written(record: Record)
    | Unparsable            // present but not valid JSON

  /** What `loadLastMessage()` returns for a file state (`None` is `null`). */
  function LoadResult(f: FileState): (r: Option<Record>)
    ensures r.Some? <==> f.Written?
    ensures f.Written? ==> r.value == f.record
  {
    if f.Written? then Some(f.record) else None
  }

  /** `(last || {}).message_id` for a loaded record `last`: its id, and undefined for null. */
  function MessageIdOf(last: Option<Record>): (id: Option<int>)
    ensures last.None? ==> id.None?
    ensures last.Some? ==> id == last.value.messageId
  {
    match last
    case Some(rec) => rec.messageId
    case None => None
  }

  /** `(loadLastMessage() || {}).message_id`: the stored message id, absent without a record. */
  function StoredMessageId(f: FileState): (id: Option<int>)
    ensures f.Written? ==> id == f.record.messageId
    ensures !f.Written? ==> id.None?
  {
    MessageIdOf(LoadResult(f))
  }

  /** Loading right after a save yields exactly the shaped record. */
  lemma LoadAfterSave(arg: Option<Payload>, today: string)
    ensures LoadResult(Written(Shape(arg, today))) == Some(Shape(arg, today))
    ensures StoredMessageId(Written(Shape(arg, today))) == if arg.Some? then arg.value.messageId else None
  {
  }

  /** The persisted last-message slot. */
  class LastMessageStore {
    var file: FileState

    constructor (initial: FileState)
      ensures file == initial
    {
      file := initial;
    }

    /** `loadLastMessage`: the saved record, or null when none was saved or it does not parse. */
    method Load() returns (r: Option<Record>)
      ensures r == LoadResult(file)
    {
      match file
      case Written(rec) => r := Some(rec);
      case Missing => r := None;
      case Unparsable => r := None;
    }

    /** `saveLastMessage(arg)`: overwrite the slot with the shaped record. */
    method Save(arg: Option<Payload>, today: string)
      modifies this
      ensures file == Written(Shape(arg, today))
      ensures LoadResult(file) == Some(Shape(arg, today))
    {
      file := Written(Shape(arg, today));
    }

    /** `deleteLastMessage`: remove the file if it exists. */
    method Delete()
      modifies this
      ensures file == Missing
      ensures LoadResult(file).None?
    {
      file := Missing;
    }
  }
}
