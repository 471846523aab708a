/** Matching cache inputs to cache outputs by name (inference_bridge/src/onnx_vitis.rs). */
module CacheNames {
  import opened Wrappers
  import opened Text

  const PAST_KEY_VALUES := "past_key_values."
  const PRESENT := "present."
  const PAST := "past."
  const KEY_VALUES := "key_values."

  predicate IsCacheTensorName(name: string) {
    var lower := Lower(name);
    && (|| Contains(lower, "past_key_values") || PAST <= lower || PRESENT <= lower
        || Contains(lower, ".past.") || Contains(lower, ".present."))
    && (Contains(lower, "key") || Contains(lower, "value"))
  }

  function CacheSlotKey(name: string): string {
    RemoveAll(RemoveAll(RemoveAll(RemoveAll(Lower(name), PAST_KEY_VALUES), PRESENT), PAST), KEY_VALUES)
  }

  /** The input name itself, then its two `present.` spellings. */
  function Candidates(input: string): seq<string> {
    [input]
    + (if PAST_KEY_VALUES <= input then [PRESENT + input[|PAST_KEY_VALUES|..]] else [])
    + (if PAST <= input then [PRESENT + input[|PAST|..]] else [])
  }

  function FirstListed(candidates: seq<string>, outputs: seq<string>): (r: Option<string>)
    ensures r.Some? ==> r.value in candidates && r.value in outputs
    ensures r.None? <==> forall c | c in candidates :: c !in outputs
  {
    if candidates == [] then None
    else if candidates[0] in outputs then Some(candidates[0])
    else FirstListed(candidates[1..], outputs)
  }

  function SlotMatches(outputs: seq<string>, key: string): (r: seq<string>)
    ensures forall name :: name in r <==> name in outputs && IsCacheTensorName(name) && CacheSlotKey(name) == key
  {
    if outputs == [] then []
    else (if IsCacheTensorName(outputs[0]) && CacheSlotKey(outputs[0]) == key then [outputs[0]] else [])
         + SlotMatches(outputs[1..], key)
  }

  predicate MentionsPresent(name: string) {
    Contains(Lower(name), "present")
  }

  /** The names that do, or do not, mention `present`, in order. */
  function Bucket(names: seq<string>, present: bool): (r: seq<string>)
    ensures forall name :: name in r <==> name in names && MentionsPresent(name) == present
    ensures r == [] <==> forall name | name in names :: MentionsPresent(name) != present
  {
    if names == [] then []
    else (if MentionsPresent(names[0]) == present then [names[0]] else []) + Bucket(names[1..], present)
  }

  /** The stable sort by "does not mention present", which has two key values. */
  function PresentFirst(names: seq<string>): seq<string> {
    Bucket(names, true) + Bucket(names, false)
  }

  function ResolveCacheOutputName(input: string, outputs: seq<string>): Option<string> {
    var listed := FirstListed(Candidates(input), outputs);
    if listed.Some? then listed
    else
      var matches := SlotMatches(outputs, CacheSlotKey(input));
      if PresentFirst(matches) == [] then None else Some(PresentFirst(matches)[0])
  }

  // ---- removing one pattern after another ----

  predicate Clash(s: string, t: string) {
    !(s <= t) && !(t <= s)
  }

  /** No occurrence of `pattern` can begin inside `prefix`, whatever follows it. */
  predicate Repels(prefix: string, pattern: string) {
    forall i :: 0 <= i < |prefix| ==> Clash(prefix[i..], pattern)
  }

  lemma ClashStays(s: string, t: string, pattern: string)
    requires Clash(s, pattern)
    ensures !(pattern <= s + t)
  {
  }

  /** One step past a character at which nothing is removed. */
  lemma RemoveAllKeeps(s: string, pattern: string)
    requires |pattern| > 0 && s != "" && !(pattern <= s)
    ensures RemoveAll(s, pattern) == [s[0]] + RemoveAll(s[1..], pattern)
  {
    if |s| < |pattern| {
      assert s == [s[0]] + s[1..];
    }
  }

  lemma {:induction false} RemoveAllSkips(prefix: string, s: string, pattern: string)
    requires |pattern| > 0 && Repels(prefix, pattern)
    ensures RemoveAll(prefix + s, pattern) == prefix + RemoveAll(s, pattern)
    decreases |prefix|
  {
    if prefix == "" {
      assert prefix + s == s;
    } else {
      assert prefix[0..] == prefix;
      ClashStays(prefix, s, pattern);
      RemoveAllKeeps(prefix + s, pattern);
      assert (prefix + s)[1..] == prefix[1..] + s;
      forall i | 0 <= i < |prefix[1..]|
        ensures Clash(prefix[1..][i..], pattern)
      {
        assert prefix[1..][i..] == prefix[i + 1..];
      }
      RemoveAllSkips(prefix[1..], s, pattern);
    }
  }

  lemma RemoveAllTakes(s: string, pattern: string)
    requires |pattern| > 0
    ensures RemoveAll(pattern + s, pattern) == RemoveAll(s, pattern)
  {
    assert (pattern + s)[..|pattern|] == pattern && (pattern + s)[|pattern|..] == s;
  }

  /** A marker whose first letter does not recur in it repels every other marker of that letter it
      clashes with. */
  lemma MarkerRepels(marker: string, pattern: string)
    requires |marker| > 0 && |pattern| > 0 && Clash(marker, pattern)
    requires forall i :: 0 < i < |marker| ==> marker[i] != pattern[0]
    ensures Repels(marker, pattern)
  {
    forall i | 0 <= i < |marker|
      ensures Clash(marker[i..], pattern)
    {
      if i == 0 {
        assert marker[0..] == marker;
      } else {
        assert marker[i..][0] != pattern[0];
      }
    }
  }

  lemma MarkersRepel()
    ensures Repels(PRESENT, PAST_KEY_VALUES)
    ensures Repels(PAST, PAST_KEY_VALUES)
    ensures Repels(PAST, PRESENT)
  {
    assert PRESENT[1] != PAST_KEY_VALUES[1] && PAST[4] != PAST_KEY_VALUES[4] && PAST[1] != PRESENT[1];
    MarkerRepels(PRESENT, PAST_KEY_VALUES);
    MarkerRepels(PAST, PAST_KEY_VALUES);
    MarkerRepels(PAST, PRESENT);
  }

  /** A `past_key_values.` or `past.` prefix and a `present.` prefix name the same slot. */
  lemma PrefixesShareSlot(rest: string)
    ensures CacheSlotKey(PAST_KEY_VALUES + rest) == CacheSlotKey(PRESENT + rest)
    ensures CacheSlotKey(PAST + rest) == CacheSlotKey(PRESENT + rest)
  {
    MarkersRepel();
    var r := Lower(rest);
    LowerConcat(PAST_KEY_VALUES, rest);
    LowerConcat(PRESENT, rest);
    LowerConcat(PAST, rest);
    assert Lower(PAST_KEY_VALUES) == PAST_KEY_VALUES && Lower(PRESENT) == PRESENT && Lower(PAST) == PAST;
    var r1 := RemoveAll(r, PAST_KEY_VALUES);
    RemoveAllTakes(r, PAST_KEY_VALUES);
    RemoveAllSkips(PRESENT, r, PAST_KEY_VALUES);
    RemoveAllSkips(PAST, r, PAST_KEY_VALUES);
    RemoveAllTakes(r1, PRESENT);
    RemoveAllSkips(PAST, r1, PRESENT);
    RemoveAllTakes(RemoveAll(r1, PRESENT), PAST);
  }

  lemma CandidatesShareSlot(input: string, candidate: string)
    requires candidate in Candidates(input)
    ensures CacheSlotKey(candidate) == CacheSlotKey(input)
  {
    if PAST_KEY_VALUES <= input {
      assert input == PAST_KEY_VALUES + input[|PAST_KEY_VALUES|..];
      PrefixesShareSlot(input[|PAST_KEY_VALUES|..]);
    }
    if PAST <= input {
      assert input == PAST + input[|PAST|..];
      PrefixesShareSlot(input[|PAST|..]);
    }
  }

  /** A resolved name is a listed output for the same slot, on each of the three routes. */
  lemma ResolvedNameSharesSlot(input: string, outputs: seq<string>)
    requires ResolveCacheOutputName(input, outputs).Some?
    ensures var name := ResolveCacheOutputName(input, outputs).value;
            name in outputs && CacheSlotKey(name) == CacheSlotKey(input)
  {
    var listed := FirstListed(Candidates(input), outputs);
    if listed.Some? {
      CandidatesShareSlot(input, listed.value);
    } else {
      var first := PresentFirst(SlotMatches(outputs, CacheSlotKey(input)));
      assert first[0] in first;
    }
  }

  /** Nothing is resolved exactly when no output is a spelling of the input or a cache tensor of
      its slot. */
  lemma UnresolvedExactly(input: string, outputs: seq<string>)
    ensures ResolveCacheOutputName(input, outputs).None? <==>
            forall name | name in outputs ::
              name !in Candidates(input) && !(IsCacheTensorName(name) && CacheSlotKey(name) == CacheSlotKey(input))
  {
    var matches := SlotMatches(outputs, CacheSlotKey(input));
    if FirstListed(Candidates(input), outputs).None? && matches != [] {
      assert matches[0] in matches;
    }
  }

  /** `name` is the earliest of `names` that does, or does not, mention `present`. */
  ghost predicate IsFirst(names: seq<string>, name: string, present: bool) {
    exists i :: 0 <= i < |names| && names[i] == name && MentionsPresent(name) == present
      && forall j :: 0 <= j < i ==> MentionsPresent(names[j]) != present
  }

  lemma {:induction false} BucketHead(names: seq<string>, present: bool)
    requires Bucket(names, present) != []
    ensures IsFirst(names, Bucket(names, present)[0], present)
  {
    if MentionsPresent(names[0]) == present {
      assert names[0] == Bucket(names, present)[0];
    } else {
      BucketHead(names[1..], present);
      var i :| 0 <= i < |names[1..]| && names[1..][i] == Bucket(names, present)[0]
               && forall j :: 0 <= j < i ==> MentionsPresent(names[1..][j]) != present;
      assert names[i + 1] == Bucket(names, present)[0];
      forall j | 0 <= j < i + 1
        ensures MentionsPresent(names[j]) != present
      {
        assert j > 0 ==> names[j] == names[1..][j - 1];
      }
    }
  }

  /** The exact name wins. By slot alone, the first match that mentions `present` wins, and the first
      match of all if none does. */
  lemma ResolutionPreference(input: string, outputs: seq<string>)
    requires ResolveCacheOutputName(input, outputs).Some?
    ensures var name := ResolveCacheOutputName(input, outputs).value;
            var matches := SlotMatches(outputs, CacheSlotKey(input));
            && (input in outputs ==> name == input)
            && (FirstListed(Candidates(input), outputs).None? ==>
                  IsFirst(matches, name, exists other :: other in matches && MentionsPresent(other)))
  {
    assert Candidates(input)[0] == input;
    var matches := SlotMatches(outputs, CacheSlotKey(input));
    if FirstListed(Candidates(input), outputs).None? {
      var present := exists other :: other in matches && MentionsPresent(other);
      assert ResolveCacheOutputName(input, outputs).value == Bucket(matches, present)[0];
      BucketHead(matches, present);
    }
  }
}
