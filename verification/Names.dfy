/** Names for sessions that come without one. */
module Names {
  import opened Bytes
  import opened Decimal
  import opened StateDir

  const ADJECTIVES: seq<string> := [
    "phantom", "hollow", "silver", "shadow", "spectral", "ghostly", "ethereal", "haunted", "mystic", "twilight",
    "silent", "fading", "ancient", "cursed", "forgotten", "pale", "dark", "eerie", "somber", "shrouded",
    "veiled", "grim", "dusk", "frost", "ashen", "waning", "void", "deep", "lost", "still"]

  const NOUNS: seq<string> := [
    "drift", "echo", "mist", "shade", "whisper", "wraith", "specter", "haunt", "gloom", "crypt",
    "tomb", "veil", "fog", "dusk", "ember", "ash", "bone", "rune", "ward", "gate",
    "marsh", "moor", "vale", "rift", "cairn", "peak", "keep", "den", "maze", "well"]

  const TRIES := 100

  /** What the random source hands out: an index into each list. */
  type Draw = d: (nat, nat) | d.0 < |ADJECTIVES| && d.1 < |NOUNS| witness (0, 0)

  function Pair(d: Draw): string
  {
    ADJECTIVES[d.0] + "-" + NOUNS[d.1]
  }

  predicate IsPair(name: string)
  {
    exists a, n :: 0 <= a < |ADJECTIVES| && 0 <= n < |NOUNS| && name == Pair((a, n))
  }

  function Candidate(base: string, k: nat): string
  {
    base + "-" + Numeral(k)
  }

  lemma CandidatesDiffer(base: string, j: nat, k: nat)
    requires Candidate(base, j) == Candidate(base, k)
    ensures j == k
  {
    var n := |base + "-"|;
    assert Numeral(j) == Candidate(base, j)[n..] && Numeral(k) == Candidate(base, k)[n..];
    NumeralInjective(j, k);
  }

  lemma {:induction false} SubsetSize<T>(a: set<T>, b: set<T>)
    requires a <= b
    ensures |a| <= |b|
  {
    if a != {} {
      var x :| x in a;
      SubsetSize(a - {x}, b - {x});
    }
  }

  /** A free pair, if any is left. */
  method FirstFreePair(existing: set<string>) returns (name: Option<string>)
    ensures name.Some? ==> IsPair(name.value) && name.value !in existing
    ensures name.None? ==> forall other :: IsPair(other) ==> other in existing
  {
    for a := 0 to |ADJECTIVES|
      invariant forall a', n :: 0 <= a' < a && 0 <= n < |NOUNS| ==> Pair((a', n)) in existing
    {
      for n := 0 to |NOUNS|
        invariant forall n' :: 0 <= n' < n ==> Pair((a, n')) in existing
      {
        var pair := ADJECTIVES[a] + "-" + NOUNS[n];
        assert pair == Pair((a, n));
        if pair !in existing {
          return Some(pair);
        }
      }
    }
    name := None;
  }

  /** The first free number, which is at most the number of taken names: the candidates all differ. */
  method FirstFreeNumber(existing: set<string>, base: string) returns (name: string, suffix: nat)
    ensures name == Candidate(base, suffix) && name !in existing
    ensures suffix <= |existing| && forall j: nat :: j < suffix ==> Candidate(base, j) in existing
  {
    suffix := 0;
    ghost var tried: set<string> := {};
    while true
      invariant forall j: nat :: j < suffix ==> Candidate(base, j) in tried
      invariant forall c <- tried :: exists j: nat :: j < suffix && c == Candidate(base, j)
      invariant tried <= existing && |tried| == suffix
      decreases |existing| - suffix
    {
      name := Candidate(base, suffix);
      SubsetSize(tried, existing);
      if name !in existing {
        return;
      }
      forall j: nat | j < suffix ensures Candidate(base, j) != name {
        if Candidate(base, j) == name { CandidatesDiffer(base, j, suffix); }
      }
      tried := tried + {name};
      SubsetSize(tried, existing);
      suffix := suffix + 1;
    }
  }

  /** Random tries, then every pair in order, then numbered names. */
  method GenerateUniqueName(existing: set<string>, draws: seq<Draw>, last: Draw) returns (name: string)
    requires |draws| == TRIES
    ensures name !in existing
    ensures forall i :: 0 <= i < TRIES && Pair(draws[i]) !in existing
                        && (forall j :: 0 <= j < i ==> Pair(draws[j]) in existing)
                        ==> name == Pair(draws[i])
    ensures (exists other :: IsPair(other) && other !in existing) ==> IsPair(name)
    ensures (forall other :: IsPair(other) ==> other in existing) ==>
              exists k: nat :: name == Candidate(Pair(last), k) && k <= |existing|
                               && forall j: nat :: j < k ==> Candidate(Pair(last), j) in existing
  {
    hide Candidate;
    for i := 0 to TRIES
      invariant forall j :: 0 <= j < i ==> Pair(draws[j]) in existing
    {
      name := Pair(draws[i]);
      if name !in existing {
        assert IsPair(name) by { assert name == Pair((draws[i].0, draws[i].1)); }
        return;
      }
    }
    var pair := FirstFreePair(existing);
    if pair.Some? {
      return pair.value;
    }
    var suffix;
    name, suffix := FirstFreeNumber(existing, Pair(last));
  }

  /** A name that was asked for is taken as it is; any other avoids the live and the saved sessions. */
  method ReserveSessionName(
      requested: string, live: set<string>, persistent: bool, listing: Option<seq<Entry>>, draws: seq<Draw>, last: Draw)
    returns (name: Option<string>)
    requires |draws| == TRIES
    ensures requested != "" ==> name == Some(requested)
    ensures requested == "" ==> (name.None? <==> persistent && listing.None?)
    ensures requested == "" && name.Some? ==> name.value !in live
    ensures requested == "" && name.Some? && persistent ==> Entry(PathOf(name.value), false) !in listing.value
  {
    if requested != "" {
      return Some(requested);
    }
    var reserved := live;
    if persistent {
      if listing.None? {
        return None;
      }
      var dead := ListDeadSessions(listing.value, reserved);
      for i := 0 to |dead|
        invariant live <= reserved && forall n <- dead[..i] :: n in reserved
      {
        assert dead[..i + 1] == dead[..i] + [dead[i]];
        reserved := reserved + {dead[i]};
      }
      assert dead[..|dead|] == dead;
    }
    var unused := GenerateUniqueName(reserved, draws, last);
    name := Some(unused);
  }
}
