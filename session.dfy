/**
 * The session context of the command line: the language and set that `pkm add` falls
 * back to between invocations, and its JSON form. The clock is a parameter; reading and
 * writing `session.json` is not modelled.
 */
module Session {
  import opened Wrappers
  import Clock

  /** The three fields of a context, as a value. */
  datatype Snapshot = Snapshot(language: Option<string>, setId: Option<string>, lastUpdated: Option<Clock.DateTime>)

  /** A snapshot whose timestamp `isoformat()` can write. */
  predicate Writable(s: Snapshot)
  {
    s.lastUpdated.Some? ==> s.lastUpdated.value.Valid()
  }

  /** The JSON object of `session.json`; `None` is JSON `null`. */
  type SessionDict = map<string, Option<string>>

  /** `dict.get(key)`: `None` for a missing key. */
  function Get(d: SessionDict, key: string): Option<string>
  {
    if key in d then d[key] else None
  }

  /** `to_dict`: all three keys, the timestamp in ISO form. */
  function SnapshotToDict(s: Snapshot): (d: SessionDict)
    requires Writable(s)
    ensures d.Keys == {"language", "set_id", "last_updated"}
    ensures d["language"] == s.language && d["set_id"] == s.setId
    ensures d["last_updated"].Some? <==> s.lastUpdated.Some?
  {
    map["language" := s.language, "set_id" := s.setId,
        "last_updated" := if s.lastUpdated.Some? then Some(Clock.Iso(s.lastUpdated.value)) else None]
  }

  /**
   * `from_dict`: missing keys read as `None`, an empty timestamp is ignored, and a
   * timestamp in neither of the two shapes `isoformat()` writes raises.
   */
  function FromDict(d: SessionDict): (r: Result<Snapshot>)
    ensures r.Ok? ==> r.value.language == Get(d, "language") && r.value.setId == Get(d, "set_id")
    ensures r.Ok? && (Get(d, "last_updated") == None || Get(d, "last_updated") == Some("")) ==> r.value.lastUpdated == None
    ensures r.Err? <==> exists t :: Get(d, "last_updated") == Some(t) && t != "" && Clock.FromIso(t).Err?
    ensures forall t :: Get(d, "last_updated") == Some(t) && Clock.FromIso(t).Ok? ==>
      r == Ok(Snapshot(Get(d, "language"), Get(d, "set_id"), Some(Clock.FromIso(t).value)))
  {
    var at := Get(d, "last_updated");
    if at.Some? && at.value != "" then
      match Clock.FromIso(at.value)
      case Err(e) => Err(e)
      case Ok(t) => Ok(Snapshot(Get(d, "language"), Get(d, "set_id"), Some(t)))
    else Ok(Snapshot(Get(d, "language"), Get(d, "set_id"), None))
  }

  /** Saving a context and loading it back restores language, set and timestamp. */
  lemma FromDictToDict(s: Snapshot)
    requires Writable(s)
    ensures FromDict(SnapshotToDict(s)) == Ok(s)
  {
    if s.lastUpdated.Some? {
      var t := s.lastUpdated.value;
      Clock.IsoRoundTrip(t);
      assert |Clock.Iso(t)| > 0;
    }
  }

  /** A stored timestamp naming a day the month does not have makes loading raise. */
  lemma ImpossibleDayRaises(d: SessionDict)
    requires Get(d, "last_updated") == Some("2024-02-30T00:00:00")
    ensures FromDict(d).Err?
  {
    Clock.ImpossibleDayRefused();
  }

  predicate SnapshotValid(s: Snapshot)
  {
    s.language.Some? && s.setId.Some?
  }

  /** `__str__`: `lang:set_id` for a valid context. */
  function Describe(s: Snapshot): (r: string)
    ensures !SnapshotValid(s) ==> r == "No context set"
    ensures SnapshotValid(s) ==> r == s.language.value + ":" + s.setId.value
  {
    if !SnapshotValid(s) then "No context set" else s.language.value + ":" + s.setId.value
  }

  /** A context that `pkm add` reads its default language and set from. */
  class SessionContext {
    var language: Option<string>
    var setId: Option<string>
    var lastUpdated: Option<Clock.DateTime>

    function State(): Snapshot
      reads this
    {
      Snapshot(language, setId, lastUpdated)
    }

    /** An empty context. */
    constructor ()
      ensures State() == Snapshot(None, None, None) && !IsValid()
    {
      language, setId, lastUpdated := None, None, None;
    }

    /** A context holding the fields `from_dict` read. */
    constructor FromSnapshot(s: Snapshot)
      ensures State() == s
    {
      language, setId, lastUpdated := s.language, s.setId, s.lastUpdated;
    }

    /** `is_valid`: both language and set are known. */
    predicate IsValid()
      reads this
      ensures IsValid() <==> SnapshotValid(State())
    {
      language.Some? && setId.Some?
    }

    /** `update`: records the language and set at instant `now`; the context is then valid. */
    method Update(newLanguage: string, newSetId: string, now: Clock.DateTime)
      modifies this
      ensures State() == Snapshot(Some(newLanguage), Some(newSetId), Some(now))
      ensures IsValid() && Describe(State()) == newLanguage + ":" + newSetId
    {
      language, setId, lastUpdated := Some(newLanguage), Some(newSetId), Some(now);
    }

    /** `clear`: forgets everything; the context is then invalid. */
    method Clear()
      modifies this
      ensures State() == Snapshot(None, None, None)
      ensures !IsValid() && Describe(State()) == "No context set"
    {
      language, setId, lastUpdated := None, None, None;
    }

    function ToDict(): (d: SessionDict)
      reads this
      requires Writable(State())
      ensures FromDict(d) == Ok(State())
    {
      FromDictToDict(State());
      SnapshotToDict(State())
    }

    function Str(): (r: string)
      reads this
      ensures IsValid() ==> r == language.value + ":" + setId.value
      ensures !IsValid() ==> r == "No context set"
    {
      Describe(State())
    }
  }
}
