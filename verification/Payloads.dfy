/** What covering and refusing do to a whole payload, place by place. */
module Payloads {
  import opened Wrappers
  import opened Redaction

  predicate Within(s: string, w: string) {
    exists p, q | 0 <= p <= q <= |s| :: s[p..q] == w
  }

  lemma FoundIffWithin(s: string, w: string)
    ensures Find(s, w, 0) != -1 <==> Within(s, w)
  {
    var found := Find(s, w, 0);
    assert found != -1 ==> s[found..found + |w|] == w;
    if p, q :| 0 <= p <= q <= |s| && s[p..q] == w {
      assert OccursAt(s, w, p);
    }
  }

  /** A key name is suspect if and only if its fold has a key word somewhere in it. */
  lemma SuspectKeyMeans(stage: Stage, key: string)
    ensures SuspectKey(stage, key) <==> exists k | 0 <= k < |stage.keyWords| :: Within(stage.foldKey(key), stage.keyWords[k])
  {
    hide Within;
    forall k | 0 <= k < |stage.keyWords| {
      FoundIffWithin(stage.foldKey(key), stage.keyWords[k]);
    }
  }

  function Child(v: Value, i: nat): Option<Value> {
    match v
    case Object(entries) => if i < |entries| then Some(entries[i].value) else None
    case Array(items) => if i < |items| then Some(items[i]) else None
    case _ => None
  }

  /** What is found by going down through these positions. */
  function At(v: Value, path: seq<nat>): Option<Value> {
    if path == [] then Some(v)
    else
      var child := Child(v, path[0]);
      if child.None? then None else At(child.value, path[1..])
  }

  /** No step of the way goes through a name that is found. */
  predicate OutsideNames(stage: Stage, v: Value, path: seq<nat>) {
    path == [] || (
      && Child(v, path[0]).Some? && !(v.Object? && KeyFound(stage, v.entries[path[0]].key))
      && OutsideNames(stage, Child(v, path[0]).value, path[1..]))
  }

  /** What one place becomes: texts are covered where they are inspected, what has no form is the marker, the rest stays. */
  predicate Becomes(stage: Stage, before: Value, after: Value) {
    match before
    case Text(text) => after == Text(if stage.inspectsValues then CoveredText(stage.rules, text) else text)
    case Unsupported => after == Text(stage.rules.marker)
    case Object(entries) => after.Object? && |after.entries| == |entries| && forall i | 0 <= i < |entries| :: after.entries[i].key == entries[i].key
    case Array(items) => after.Array? && |after.items| == |items|
    case _ => after == before
  }

  /** Everywhere outside found names the covered payload has what that place becomes. */
  lemma {:induction false} CoveredOutsideNames(stage: Stage, v: Value, path: seq<nat>)
    requires At(v, path).Some? && OutsideNames(stage, v, path)
    ensures At(Covered(stage, v), path).Some? && Becomes(stage, At(v, path).value, At(Covered(stage, v), path).value)
    decreases |path|
  {
    hide CoveredText, SuspectKey;
    if path != [] {
      CoveredOutsideNames(stage, Child(v, path[0]).value, path[1..]);
      assert Child(Covered(stage, v), path[0]) == Some(Covered(stage, Child(v, path[0]).value));
    }
  }

  /** And behind a found name there is the marker, whatever was there. */
  lemma {:induction false} MarkerBehindNames(stage: Stage, v: Value, path: seq<nat>, i: nat)
    requires OutsideNames(stage, v, path) && At(v, path).Some? && At(v, path).value.Object?
    requires i < |At(v, path).value.entries| && KeyFound(stage, At(v, path).value.entries[i].key)
    ensures At(Covered(stage, v), path + [i]) == Some(Text(stage.rules.marker))
    decreases |path|
  {
    hide CoveredText, SuspectKey;
    if path == [] {
      assert [i][1..] == [];
    } else {
      MarkerBehindNames(stage, Child(v, path[0]).value, path[1..], i);
      assert Child(Covered(stage, v), path[0]) == Some(Covered(stage, Child(v, path[0]).value));
      assert (path + [i])[1..] == path[1..] + [i];
    }
  }

  // ----- which offence is reported

  /** Everything that could be reported, in the order of the payload. */
  ghost function Offences(stage: Stage, v: Value, path: seq<Step>): seq<Complaint>
    decreases v
  {
    match v
    case Object(entries) => OffencesOfEntries(stage, v, 0, path)
    case Text(text) => if TextFound(stage, text) then [CredentialShape(path)] else []
    case Array(items) => OffencesOfItems(stage, v, 0, path)
    case Unsupported => [UnsupportedAt(path)]
    case _ => []
  }

  ghost function OffencesOfEntries(stage: Stage, v: Value, i: nat, path: seq<Step>): seq<Complaint>
    requires v.Object? && i <= |v.entries|
    decreases v, |v.entries| - i + 1
  {
    if i == |v.entries| then []
    else
      var at := path + [Key(v.entries[i].key)];
      (if KeyFound(stage, v.entries[i].key) then [CredentialName(at)] else [])
      + Offences(stage, v.entries[i].value, at) + OffencesOfEntries(stage, v, i + 1, path)
  }

  ghost function OffencesOfItems(stage: Stage, v: Value, i: nat, path: seq<Step>): seq<Complaint>
    requires v.Array? && i <= |v.items|
    decreases v, |v.items| - i + 1
  {
    if i == |v.items| then []
    else Offences(stage, v.items[i], path + [Index(i)]) + OffencesOfItems(stage, v, i + 1, path)
  }

  function First(offences: seq<Complaint>): Option<Complaint> {
    if offences == [] then None else Some(offences[0])
  }

  /** The error names the first of them, at its place and of its kind. */
  lemma {:induction false} FirstOffenceIsFirst(stage: Stage, v: Value, path: seq<Step>)
    ensures FirstOffence(stage, v, path) == First(Offences(stage, v, path))
    decreases v
  {
    hide TextFound, KeyFound;
    match v {
      case Object(entries) => FirstOfEntries(stage, v, 0, path);
      case Array(items) => FirstOfItems(stage, v, 0, path);
      case _ =>
    }
  }

  lemma {:induction false} FirstOfEntries(stage: Stage, v: Value, i: nat, path: seq<Step>)
    requires v.Object? && i <= |v.entries|
    ensures OffenceInEntries(stage, v, i, path) == First(OffencesOfEntries(stage, v, i, path))
    decreases v, |v.entries| - i + 1
  {
    hide TextFound, KeyFound;
    if i < |v.entries| {
      FirstOffenceIsFirst(stage, v.entries[i].value, path + [Key(v.entries[i].key)]);
      FirstOfEntries(stage, v, i + 1, path);
    }
  }

  lemma {:induction false} FirstOfItems(stage: Stage, v: Value, i: nat, path: seq<Step>)
    requires v.Array? && i <= |v.items|
    ensures OffenceInItems(stage, v, i, path) == First(OffencesOfItems(stage, v, i, path))
    decreases v, |v.items| - i + 1
  {
    hide TextFound, KeyFound;
    if i < |v.items| {
      FirstOffenceIsFirst(stage, v.items[i], path + [Index(i)]);
      FirstOfItems(stage, v, i + 1, path);
    }
  }
}
