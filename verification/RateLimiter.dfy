/** The rate-limit section of handleUnknown in emulator/unknown.go: at most one warning per path and
cooldown.  Times are nanoseconds; each is read under the mutex that guards the map. */
module RateLimiter {
  datatype Request = Request(path: string, now: int)

  /** One minute. */
  const LOG_COOLDOWN: int := 60_000_000_000

  predicate Warns(last: map<string, int>, r: Request) {
    r.path !in last || r.now - last[r.path] >= LOG_COOLDOWN
  }

  function Remember(last: map<string, int>, r: Request): map<string, int> {
    if Warns(last, r) then last[r.path := r.now] else last
  }

  class UnknownPaths {
    var unknownRateMap: map<string, int>

    constructor ()
      ensures unknownRateMap == map[]
    {
      unknownRateMap := map[];
    }

    /** The critical section of handleUnknown; `warned` says which of the two log calls follows. */
    method Handle(r: Request) returns (warned: bool)
      modifies this
      ensures warned == Warns(old(unknownRateMap), r)
      ensures unknownRateMap == Remember(old(unknownRateMap), r)
    {
      var seen := r.path in unknownRateMap;
      if !seen || r.now - unknownRateMap[r.path] >= LOG_COOLDOWN {
        unknownRateMap := unknownRateMap[r.path := r.now];
        return true;
      }
      return false;
    }
  }

  // ---------------------------------------------------------------------------------------------
  // Whole request sequences

  function After(rs: seq<Request>): map<string, int> {
    if rs == [] then map[] else Remember(After(rs[..|rs| - 1]), rs[|rs| - 1])
  }

  /** Request `i` is answered with a warning. */
  predicate Warned(rs: seq<Request>, i: nat)
    requires i < |rs|
  {
    Warns(After(rs[..i]), rs[i])
  }

  predicate WarnedFor(rs: seq<Request>, i: nat, path: string) {
    i < |rs| && rs[i].path == path && Warned(rs, i)
  }

  ghost predicate Ordered(rs: seq<Request>) {
    forall i, j :: 0 <= i < j < |rs| ==> rs[i].now <= rs[j].now
  }

  /** The requests before the last `n` keep their fate. */
  lemma PrefixWarned(rs: seq<Request>, n: nat, i: nat)
    requires i < n <= |rs|
    ensures Warned(rs[..n], i) == Warned(rs, i) && rs[..n][i] == rs[i]
  {
    assert rs[..n][..i] == rs[..i];
  }

  /** The map holds, for each path warned about, the time of its latest warning. */
  lemma {:induction false} LatestWarning(rs: seq<Request>, path: string) returns (i: int)
    ensures path in After(rs) <==> i >= 0
    ensures i >= 0 ==> WarnedFor(rs, i, path) && After(rs)[path] == rs[i].now
    ensures forall j :: 0 <= j < |rs| && j > i ==> !WarnedFor(rs, j, path)
    decreases |rs|
  {
    if rs == [] { return -1; }
    var n := |rs| - 1;
    if WarnedFor(rs, n, path) { return n; }
    i := LatestWarning(rs[..n], path);
    if i >= 0 { PrefixWarned(rs, n, i); }
    forall j | 0 <= j < |rs| && j > i ensures !WarnedFor(rs, j, path) {
      if j < n {
        PrefixWarned(rs, n, j);
        assert !WarnedFor(rs[..n], j, path);
      }
    }
  }

  /** Two warnings for one path are at least a cooldown apart. */
  lemma {:induction false} WarningsSpaced(rs: seq<Request>, i: nat, j: nat, path: string)
    requires i < j && WarnedFor(rs, i, path) && WarnedFor(rs, j, path)
    ensures rs[j].now - rs[i].now >= 60_000_000_000
    decreases j
  {
    var k := LatestWarning(rs[..j], path);
    PrefixWarned(rs, j, i);
    assert WarnedFor(rs[..j], i, path);
    assert k >= i;
    PrefixWarned(rs, j, k);
    if k > i { WarningsSpaced(rs, i, k, path); }
  }

  /** A suppressed request has a warning for its path less than a cooldown earlier. */
  lemma SuppressedHasWarning(rs: seq<Request>, i: nat) returns (j: nat)
    requires i < |rs| && !Warned(rs, i) && Ordered(rs)
    ensures j < i && WarnedFor(rs, j, rs[i].path) && 0 <= rs[i].now - rs[j].now < 60_000_000_000
  {
    var k := LatestWarning(rs[..i], rs[i].path);
    PrefixWarned(rs, i, k);
    j := k;
  }

  /** Warnings for `path` with times in [lo, hi]. */
  function WarningsIn(rs: seq<Request>, path: string, lo: int, hi: int): nat {
    if rs == [] then 0
    else
      var n := |rs| - 1;
      WarningsIn(rs[..n], path, lo, hi) + if WarnedFor(rs, n, path) && lo <= rs[n].now <= hi then 1 else 0
  }

  function Min(a: int, b: int): int { if a < b then a else b }

  lemma {:induction false} WarningsSpread(rs: seq<Request>, path: string, lo: int, hi: int)
    ensures var n := WarningsIn(rs, path, lo, hi);
            n > 0 ==> path in After(rs) && (n - 1) * LOG_COOLDOWN <= Min(After(rs)[path], hi) - lo
    decreases |rs|
  {
    if rs != [] { WarningsSpread(rs[..|rs| - 1], path, lo, hi); }
  }

  /** A window of length L holds at most floor(L / cooldown) + 1 warnings for a path. */
  lemma WindowBound(rs: seq<Request>, path: string, lo: int, hi: int)
    requires lo <= hi
    ensures WarningsIn(rs, path, lo, hi) <= (hi - lo) / 60_000_000_000 + 1
  {
    WarningsSpread(rs, path, lo, hi);
  }

  function Only(rs: seq<Request>, path: string): seq<Request> {
    if rs == [] then []
    else Only(rs[..|rs| - 1], path) + if rs[|rs| - 1].path == path then [rs[|rs| - 1]] else []
  }

  /** Requests for other paths change nothing: a path's entry is that of its own requests alone. */
  lemma {:induction false} PathsIndependent(rs: seq<Request>, path: string)
    ensures path in After(rs) <==> path in After(Only(rs, path))
    ensures path in After(rs) ==> After(rs)[path] == After(Only(rs, path))[path]
    decreases |rs|
  {
    if rs != [] {
      var front, last := rs[..|rs| - 1], rs[|rs| - 1];
      PathsIndependent(front, path);
      if last.path == path {
        assert (Only(front, path) + [last])[..|Only(front, path)|] == Only(front, path);
      } else {
        assert Only(rs, path) == Only(front, path);
      }
    }
  }
}
