/**
 * The placeholder map of the password-reset resource: every posted value
 * becomes the replacement of the placeholder `${key}` of its key.
 */
module Placeholders {
  import opened Wrappers

  /** A value posted by the caller: a Java `String`, `null`, or any other object (with its `toString()`). */
  datatype Value = Null | Str(s: string) | Obj(repr: string)

  type Payload = map<string, Value>

  /** `entry.getValue().toString()`; a null value has no `toString()`. */
  function Text(v: Value): string
    requires v != Null
  {
    match v
    case Str(s) => s
    case Obj(repr) => repr
  }

  predicate NoNulls(props: Payload) {
    forall k :: k in props ==> props[k] != Null
  }

  /** `toPlaceholder`: the placeholder `${key}`. */
  function ToPlaceholder(key: string): string {
    "${" + key + "}"
  }

  /** Reads the key back out of a placeholder. */
  function PlaceholderName(p: string): Option<string> {
    if |p| >= 3 && p[..2] == "${" && p[|p| - 1] == '}' then Some(p[2..|p| - 1]) else None
  }

  lemma PlaceholderRoundTrip(key: string)
    ensures PlaceholderName(ToPlaceholder(key)) == Some(key)
  {
    var p := ToPlaceholder(key);
    assert p[..2] == "${" && p[2..|p| - 1] == key;
  }

  /** Distinct keys give distinct placeholders, so no posted entry overwrites another. */
  lemma PlaceholderInjective(a: string, b: string)
    ensures ToPlaceholder(a) == ToPlaceholder(b) ==> a == b
  {
    PlaceholderRoundTrip(a);
    PlaceholderRoundTrip(b);
  }

  lemma PlaceholdersInjective()
    ensures forall a, b {:trigger ToPlaceholder(a), ToPlaceholder(b)} :: ToPlaceholder(a) == ToPlaceholder(b) ==> a == b
  {
    forall a, b
      ensures ToPlaceholder(a) == ToPlaceholder(b) ==> a == b
    {
      PlaceholderInjective(a, b);
    }
  }

  /** The entries the posted values contribute: `${k}` maps to the text of the value posted under `k`. */
  function PostedReplacements(props: Payload): map<string, string>
    requires NoNulls(props)
  {
    PlaceholdersInjective();
    map k | k in props :: ToPlaceholder(k) := Text(props[k])
  }

  /**
   * `m` holds exactly the posted entries: `${k}` with the text of the value
   * posted under `k` for every posted `k`, and no other key.
   */
  ghost predicate Characterizes(m: map<string, string>, props: Payload)
    requires NoNulls(props)
  {
    && (forall k :: k in props ==> ToPlaceholder(k) in m && m[ToPlaceholder(k)] == Text(props[k]))
    && (forall p :: p in m ==> exists k :: k in props && p == ToPlaceholder(k))
  }

  lemma PostedReplacementsContents(props: Payload)
    requires NoNulls(props)
    ensures Characterizes(PostedReplacements(props), props)
  {
    PlaceholdersInjective();
  }

  /** The `HashMap` the resource fills before rendering. */
  class ReplacementMap {
    var entries: map<string, string>

    constructor ()
      ensures entries == map[]
    {
      entries := map[];
    }

    method Put(key: string, value: string)
      modifies this
      ensures entries == old(entries)[key := value]
    {
      entries := entries[key := value];
    }
  }

  /**
   * `populateReplacementMap`: puts `${k}` with the text of each posted value,
   * in whatever order the entries come; a null value stops it (a
   * `NullPointerException`), leaving the map partly filled.
   */
  method PopulateReplacementMap(replacements: ReplacementMap, props: Payload) returns (ok: bool)
    modifies replacements
    ensures ok <==> NoNulls(props)
    ensures ok ==> replacements.entries == old(replacements.entries) + PostedReplacements(props)
  {
    var pending := props.Keys;
    ghost var done: Payload := map[];
    ghost var posted: map<string, string> := map[];
    while pending != {}
      invariant Filled(replacements.entries, old(replacements.entries), posted, done, props, pending)
      decreases pending
    {
      var k :| k in pending;
      if props[k] == Null {
        return false;
      }
      FillStep(replacements.entries, old(replacements.entries), posted, done, props, pending, k);
      replacements.Put(ToPlaceholder(k), Text(props[k]));
      posted := posted[ToPlaceholder(k) := Text(props[k])];
      done := done[k := props[k]];
      pending := pending - {k};
    }
    assert done == props;
    CharacterizesPosted(posted, props);
    ok := true;
  }

  /** The loop invariant of `PopulateReplacementMap`: the keys done so far have their entries. */
  ghost predicate Filled(entries: map<string, string>, initial: map<string, string>, posted: map<string, string>,
                         done: Payload, props: Payload, pending: set<string>)
  {
    && pending <= props.Keys
    && done.Keys == props.Keys - pending
    && (forall j :: j in done ==> done[j] == props[j])
    && NoNulls(done)
    && Characterizes(posted, done)
    && entries == initial + posted
  }

  lemma FillStep(entries: map<string, string>, initial: map<string, string>, posted: map<string, string>,
                 done: Payload, props: Payload, pending: set<string>, k: string)
    requires Filled(entries, initial, posted, done, props, pending)
    requires k in pending && props[k] != Null
    ensures Filled(entries[ToPlaceholder(k) := Text(props[k])], initial, posted[ToPlaceholder(k) := Text(props[k])],
                   done[k := props[k]], props, pending - {k})
  {
    CharacterizesExtend(posted, done, k, props[k]);
    UnionUpdate(initial, posted, ToPlaceholder(k), Text(props[k]));
  }

  /** Putting the entry of one more posted key keeps the map exactly the posted entries. */
  lemma CharacterizesExtend(m: map<string, string>, done: Payload, k: string, v: Value)
    requires NoNulls(done) && k !in done && v != Null && Characterizes(m, done)
    ensures NoNulls(done[k := v]) && Characterizes(m[ToPlaceholder(k) := Text(v)], done[k := v])
  {
    var m' := m[ToPlaceholder(k) := Text(v)];
    forall j | j in done[k := v]
      ensures ToPlaceholder(j) in m' && m'[ToPlaceholder(j)] == Text(done[k := v][j])
    {
      PlaceholderInjective(j, k);
    }
    forall p | p in m'
      ensures exists j :: j in done[k := v] && p == ToPlaceholder(j)
    {
      if p != ToPlaceholder(k) {
        var j :| j in done && p == ToPlaceholder(j);
        assert j in done[k := v];
      }
    }
  }

  /** The posted entries determine the map: whatever order they were put in, the result is `PostedReplacements`. */
  lemma CharacterizesPosted(m: map<string, string>, props: Payload)
    requires NoNulls(props) && Characterizes(m, props)
    ensures m == PostedReplacements(props)
  {
    PostedReplacementsContents(props);
    var r := PostedReplacements(props);
    forall p | p in m
      ensures p in r && m[p] == r[p]
    {
      var k :| k in props && p == ToPlaceholder(k);
    }
    forall p | p in r
      ensures p in m
    {
      var k :| k in props && p == ToPlaceholder(k);
    }
  }

  lemma UnionUpdate(a: map<string, string>, b: map<string, string>, key: string, value: string)
    ensures (a + b)[key := value] == a + b[key := value]
  {
  }
}
