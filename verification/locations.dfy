/** Shaping of geocoding results: `_deduplicate_locations` and
    `_check_local_name` of WeatherApiClient. */
module Locations {
  import opened Wrappers
  import opened Text
  import opened Json

  /** One geocoding result: the fields the service reads, and every other
      field (lat, lon, state, ...) carried unchanged in `rest`. */
  datatype Location = Location(
    name: string,
    country: string,
    localNames: Option<map<string, string>>,
    rest: map<string, Json>)

  /** The duplicate key `(loc['name'].lower(), loc['country'])`. */
  function KeyOf(loc: Location): (string, string) {
    (Lower(loc.name), loc.country)
  }

  function KeySet(s: seq<Location>): set<(string, string)> {
    set i | 0 <= i < |s| :: KeyOf(s[i])
  }

  predicate UniqueKeys(s: seq<Location>) {
    forall i, j :: 0 <= i < j < |s| ==> KeyOf(s[i]) != KeyOf(s[j])
  }

  /** `s[i]` is the first entry of `s` with its key. */
  ghost predicate FirstOccurrence(s: seq<Location>, i: int)
    requires 0 <= i < |s|
  {
    forall j :: 0 <= j < i ==> KeyOf(s[j]) != KeyOf(s[i])
  }

  /** `idx` lists, in increasing order, positions of `b` whose entries
      are, in turn, the entries of `a`. */
  ghost predicate SubsequenceVia(a: seq<Location>, b: seq<Location>, idx: seq<nat>) {
    && |idx| == |a|
    && (forall k :: 0 <= k < |idx| ==> idx[k] < |b| && a[k] == b[idx[k]])
    && (forall k, l :: 0 <= k < l < |idx| ==> idx[k] < idx[l])
  }

  ghost predicate IsSubsequence(a: seq<Location>, b: seq<Location>) {
    exists idx :: SubsequenceVia(a, b, idx)
  }

  lemma KeySetSnoc(s: seq<Location>, x: Location)
    ensures KeySet(s + [x]) == KeySet(s) + {KeyOf(x)}
  {
    var t := s + [x];
    assert forall i :: 0 <= i < |s| ==> t[i] == s[i];
    assert t[|s|] == x;
  }

  /** Keeps the first entry for each key, in input order; the reference
      definition, stated over ever longer prefixes of the input. */
  function Dedup(s: seq<Location>): (r: seq<Location>)
    ensures KeySet(r) == KeySet(s)
    ensures |r| <= |s|
    decreases |s|
  {
    if |s| == 0 then []
    else
      var init := s[..|s| - 1];
      var last := s[|s| - 1];
      var p := Dedup(init);
      KeySetSnoc(init, last);
      KeySetSnoc(p, last);
      if KeyOf(last) in KeySet(p) then p else p + [last]
  }

  /** No two entries of the output share a key. */
  lemma {:induction false} DedupHasUniqueKeys(s: seq<Location>)
    ensures UniqueKeys(Dedup(s))
    decreases |s|
  {
    if |s| > 0 {
      var init, last := s[..|s| - 1], s[|s| - 1];
      var p := Dedup(init);
      DedupHasUniqueKeys(init);
      if KeyOf(last) !in KeySet(p) {
        var r := p + [last];
        forall i, j | 0 <= i < j < |r| ensures KeyOf(r[i]) != KeyOf(r[j]) {
          if j == |p| {
            assert r[i] == p[i];
            assert KeyOf(p[i]) in KeySet(p);
          } else {
            assert r[i] == p[i] && r[j] == p[j];
          }
        }
      }
    }
  }

  /** The positions of `s` that Dedup keeps. */
  function DedupSources(s: seq<Location>): seq<nat>
    decreases |s|
  {
    if |s| == 0 then []
    else
      var p := Dedup(s[..|s| - 1]);
      var q := DedupSources(s[..|s| - 1]);
      if KeyOf(s[|s| - 1]) in KeySet(p) then q else q + [|s| - 1]
  }

  /** One step of Dedup and DedupSources: the last entry is kept exactly
      when its key is new. */
  lemma DedupUnfold(s: seq<Location>)
    requires |s| > 0
    ensures var init, last := s[..|s| - 1], s[|s| - 1];
            KeyOf(last) in KeySet(Dedup(init)) ==>
              Dedup(s) == Dedup(init) && DedupSources(s) == DedupSources(init)
    ensures var init, last := s[..|s| - 1], s[|s| - 1];
            KeyOf(last) !in KeySet(Dedup(init)) ==>
              Dedup(s) == Dedup(init) + [last] && DedupSources(s) == DedupSources(init) + [|s| - 1]
  {
  }

  /** A subsequence of all but the last entry of `b` is a subsequence of
      `b`, and stays one when that last entry is appended to it. */
  lemma SubsequenceSnoc(a: seq<Location>, b: seq<Location>, idx: seq<nat>)
    requires |b| > 0
    requires SubsequenceVia(a, b[..|b| - 1], idx)
    ensures SubsequenceVia(a, b, idx)
    ensures SubsequenceVia(a + [b[|b| - 1]], b, idx + [|b| - 1])
  {
    assert forall k :: 0 <= k < |idx| ==> b[..|b| - 1][idx[k]] == b[idx[k]];
  }

  /** The positions DedupSources lists pick out Dedup(s), in order. */
  lemma {:induction false} DedupSourcesSelect(s: seq<Location>)
    ensures SubsequenceVia(Dedup(s), s, DedupSources(s))
    decreases |s|
  {
    if |s| > 0 {
      var init := s[..|s| - 1];
      DedupSourcesSelect(init);
      DedupUnfold(s);
      SubsequenceSnoc(Dedup(init), s, DedupSources(init));
    }
  }

  /** Extending the input does not change which earlier entries are first
      occurrences. */
  lemma FirstOccurrencePrefix(s: seq<Location>, n: nat, i: nat)
    requires i < n <= |s|
    ensures FirstOccurrence(s, i) <==> FirstOccurrence(s[..n], i)
  {
    assert forall j :: 0 <= j <= i ==> s[j] == s[..n][j];
  }

  /** The last entry is a first occurrence exactly when its key is not
      among the keys before it. */
  lemma FirstOccurrenceLast(s: seq<Location>)
    requires |s| > 0
    ensures FirstOccurrence(s, |s| - 1) <==> KeyOf(s[|s| - 1]) !in KeySet(s[..|s| - 1])
  {
    var n := |s| - 1;
    var init := s[..n];
    if KeyOf(s[n]) in KeySet(init) {
      var j :| 0 <= j < n && KeyOf(init[j]) == KeyOf(s[n]);
      assert s[j] == init[j];
    } else {
      forall j | 0 <= j < n ensures KeyOf(s[j]) != KeyOf(s[n]) {
        assert s[j] == init[j];
        assert KeyOf(init[j]) in KeySet(init);
      }
    }
  }

  /** Extending the input by one entry: the positions of first occurrences
      are those of the shorter input, plus the new position when its key
      is new. */
  lemma FirstOccurrencesSnoc(s: seq<Location>, q: seq<nat>, r: seq<nat>)
    requires |s| > 0
    requires forall i :: 0 <= i < |s| - 1 ==> (i in q <==> FirstOccurrence(s[..|s| - 1], i))
    requires forall i :: i in r <==> i in q || (i == |s| - 1 && FirstOccurrence(s, |s| - 1))
    requires |s| - 1 !in q
    ensures forall i :: 0 <= i < |s| ==> (i in r <==> FirstOccurrence(s, i))
  {
    forall i | 0 <= i < |s| - 1
      ensures i in r <==> FirstOccurrence(s, i)
    {
      FirstOccurrencePrefix(s, |s| - 1, i);
    }
  }

  /** Every kept position lies inside the input. */
  lemma DedupSourcesBelow(s: seq<Location>)
    ensures |s| !in DedupSources(s)
  {
    DedupSourcesSelect(s);
    var q := DedupSources(s);
    assert forall k :: 0 <= k < |q| ==> q[k] < |s|;
  }

  /** Dedup(s) keeps exactly the first occurrence of each key. */
  lemma {:induction false} DedupSourcesAreFirstOccurrences(s: seq<Location>)
    ensures forall i :: 0 <= i < |s| ==> (i in DedupSources(s) <==> FirstOccurrence(s, i))
    decreases |s|
  {
    if |s| > 0 {
      var n := |s| - 1;
      var init := s[..n];
      var q := DedupSources(init);
      DedupSourcesAreFirstOccurrences(init);
      DedupSourcesBelow(init);
      DedupUnfold(s);
      FirstOccurrenceLast(s);
      if FirstOccurrence(s, n) {
        assert DedupSources(s) == q + [n];
        assert forall i :: i in q + [n] <==> i in q || i == n;
      } else {
        assert DedupSources(s) == q;
      }
      FirstOccurrencesSnoc(s, q, DedupSources(s));
    }
  }

  lemma DedupIsSubsequence(s: seq<Location>)
    ensures IsSubsequence(Dedup(s), s)
  {
    DedupSourcesSelect(s);
  }

  /** An input without duplicate keys comes back unchanged. */
  lemma {:induction false} DedupOfUnique(s: seq<Location>)
    requires UniqueKeys(s)
    ensures Dedup(s) == s
    decreases |s|
  {
    if |s| > 0 {
      var n := |s| - 1;
      var init := s[..n];
      DedupOfUnique(init);
      assert KeyOf(s[n]) !in KeySet(init) by {
        forall i | 0 <= i < n ensures KeyOf(init[i]) != KeyOf(s[n]) {
          assert init[i] == s[i];
        }
      }
      assert init + [s[n]] == s;
    }
  }

  lemma DedupIdempotent(s: seq<Location>)
    ensures Dedup(Dedup(s)) == Dedup(s)
  {
    DedupHasUniqueKeys(s);
    DedupOfUnique(Dedup(s));
  }

  /** `_deduplicate_locations`: one pass with a set of seen keys. */
  method DeduplicateLocations(data: seq<Location>) returns (unique: seq<Location>)
    ensures unique == Dedup(data)
  {
    var seen: set<(string, string)> := {};
    unique := [];
    for i := 0 to |data|
      invariant unique == Dedup(data[..i])
      invariant seen == KeySet(unique)
    {
      var key := KeyOf(data[i]);
      assert data[..i + 1][..i] == data[..i];
      if key !in seen {
        KeySetSnoc(unique, data[i]);
        seen := seen + {key};
        unique := unique + [data[i]];
      }
    }
    assert data[..|data|] == data;
  }

  /** The language whose local name replaces the display name. */
  const LocalNameLang: string := "ru"

  /** The local name of `loc` in `lang`, when it has one. */
  function LocalName(loc: Location, lang: string): Option<string> {
    if loc.localNames.Some? && lang in loc.localNames.value
    then Some(loc.localNames.value[lang]) else None
  }

  /** One iteration of `_check_local_name`. */
  function Localize(loc: Location, lang: string): (r: Location)
    ensures r.name != loc.name <==> LocalName(loc, lang).Some? && LocalName(loc, lang).value != loc.name
    ensures r.name != loc.name ==> r.name == LocalName(loc, lang).value
    ensures r.(name := loc.name) == loc
  {
    if loc.localNames.Some? && lang in loc.localNames.value then
      if loc.localNames.value[lang] != loc.name then loc.(name := loc.localNames.value[lang])
      else loc
    else loc
  }

  /** `_check_local_name(data, lang)`. */
  function CheckLocalName(data: seq<Location>, lang: string): (r: seq<Location>)
    ensures |r| == |data|
    ensures forall i :: 0 <= i < |data| ==>
              && r[i].(name := data[i].name) == data[i]
              && (r[i].name != data[i].name <==>
                    LocalName(data[i], lang).Some? && LocalName(data[i], lang).value != data[i].name)
              && (LocalName(data[i], lang).Some? ==> r[i].name == LocalName(data[i], lang).value)
  {
    seq(|data|, i requires 0 <= i < |data| => Localize(data[i], lang))
  }

  /** Localizing an already localized list changes nothing. */
  lemma CheckLocalNameIdempotent(data: seq<Location>, lang: string)
    ensures CheckLocalName(CheckLocalName(data, lang), lang) == CheckLocalName(data, lang)
  {
  }
}
