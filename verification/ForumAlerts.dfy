/** The watcher's memory of alerts it has posted (tools/forum_watch.py, `already_alerted`): signatures in the order
    they came, the oldest dropped beyond two hundred.
 */
module ForumAlerts {

  const CAP := 200

  /** The last `CAP` signatures. */
  function Capped(s: seq<string>): seq<string> {
    if |s| > CAP then s[|s| - CAP..] else s
  }

  /** The signatures kept once `sig` was looked up: oldest first, at most `CAP`. */
  function Noted(seen: seq<string>, sig: string): seq<string> {
    if sig in seen then seen else Capped(seen + [sig])
  }

  class AlertBook {
    var seen: seq<string>

    method AlreadyAlerted(sig: string) returns (r: bool)
      modifies this
      ensures r <==> sig in old(seen)
      ensures seen == Noted(old(seen), sig)
    {
      if sig in seen {
        return true;
      }
      seen := seen + [sig];
      if |seen| > CAP {
        seen := seen[|seen| - CAP..];
      }
      r := false;
    }
  }

  /** Whose turn it is at lookup `k`, when `n` problems come up in the same order cycle after cycle. */
  function Turn(n: nat, k: nat): (t: nat)
    requires n > 0
    ensures t < n
  {
    if k == 0 then 0 else if Turn(n, k - 1) + 1 == n then 0 else Turn(n, k - 1) + 1
  }

  lemma {:induction false} TurnBelow(n: nat, k: nat)
    requires k < n
    ensures Turn(n, k) == k
  {
    if k > 0 {
      TurnBelow(n, k - 1);
    }
  }

  /** The distance between two lookups closer than a cycle, going round. */
  lemma {:induction false} TurnLater(n: nat, a: nat, d: nat)
    requires d < n
    ensures Turn(n, a + d) == if Turn(n, a) + d < n then Turn(n, a) + d else Turn(n, a) + d - n
  {
    if d > 0 {
      TurnLater(n, a, d - 1);
    }
  }

  lemma {:induction false} NearButDifferent(n: nat, a: nat, b: nat)
    requires n > 0 && a < b < a + n
    ensures Turn(n, a) != Turn(n, b)
  {
    TurnLater(n, a, b - a);
  }

  function Asked(sigs: seq<string>, k: nat): string
    requires sigs != []
  {
    sigs[Turn(|sigs|, k)]
  }

  function SeenAfter(sigs: seq<string>, k: nat): seq<string>
    requires sigs != []
  {
    if k == 0 then [] else Noted(SeenAfter(sigs, k - 1), Asked(sigs, k - 1))
  }

  predicate Distinct(sigs: seq<string>) {
    forall a, b :: 0 <= a < b < |sigs| ==> sigs[a] != sigs[b]
  }

  lemma {:induction false} DistinctAt(sigs: seq<string>, x: nat, y: nat)
    requires Distinct(sigs) && x < |sigs| && y < |sigs| && x != y
    ensures sigs[x] != sigs[y]
  {
  }

  /** The last lookups, at most `CAP` of them. */
  function Window(sigs: seq<string>, k: nat): (w: seq<string>)
    requires sigs != []
    ensures |w| == if k > CAP then CAP else k
    ensures forall i :: 0 <= i < |w| ==> w[i] == Asked(sigs, k - |w| + i)
  {
    var lo := if k > CAP then k - CAP else 0;
    seq(k - lo, i requires 0 <= i < k - lo => Asked(sigs, lo + i))
  }

  lemma {:induction false} WindowMisses(sigs: seq<string>, k: nat)
    requires Distinct(sigs) && |sigs| > CAP
    ensures Asked(sigs, k) !in Window(sigs, k)
  {
    var w := Window(sigs, k);
    forall i | 0 <= i < |w| ensures w[i] != Asked(sigs, k) {
      NearButDifferent(|sigs|, k - |w| + i, k);
      DistinctAt(sigs, Turn(|sigs|, k - |w| + i), Turn(|sigs|, k));
    }
  }

  lemma {:induction false} ManyForget(sigs: seq<string>, k: nat)
    requires Distinct(sigs) && |sigs| > CAP
    ensures SeenAfter(sigs, k) == Window(sigs, k)
  {
    if k > 0 {
      ManyForget(sigs, k - 1);
      WindowMisses(sigs, k - 1);
      WindowMoves(sigs, k - 1);
    }
  }

  lemma {:induction false} WindowMoves(sigs: seq<string>, k: nat)
    requires sigs != []
    ensures Window(sigs, k + 1) == Capped(Window(sigs, k) + [Asked(sigs, k)])
  {
    var w, next := Window(sigs, k) + [Asked(sigs, k)], Window(sigs, k + 1);
    var drop := |w| - |next|;
    forall i | 0 <= i < |next| ensures next[i] == w[drop + i] {
    }
    assert next == w[drop..];
  }

  lemma {:induction false} FirstCycle(sigs: seq<string>, k: nat)
    requires Distinct(sigs) && 0 < |sigs| <= CAP && k <= |sigs|
    ensures SeenAfter(sigs, k) == sigs[..k]
  {
    if k > 0 {
      FirstCycle(sigs, k - 1);
      TurnBelow(|sigs|, k - 1);
      assert sigs[k - 1] !in sigs[..k - 1];
      assert sigs[..k] == sigs[..k - 1] + [sigs[k - 1]];
    }
  }

  lemma {:induction false} LaterCycles(sigs: seq<string>, k: nat)
    requires Distinct(sigs) && 0 < |sigs| <= CAP && k >= |sigs|
    ensures SeenAfter(sigs, k) == sigs
  {
    if k == |sigs| {
      FirstCycle(sigs, k);
      assert sigs[..k] == sigs;
    } else {
      LaterCycles(sigs, k - 1);
      assert Asked(sigs, k - 1) in sigs;
    }
  }

  /** When the same distinct problems come up cycle after cycle, lookup `k` alerts if and only if it is the first for
      its problem or there are more than `CAP` problems: then every one of them is alerted in every cycle. */
  lemma {:induction false} AlertsOnceIff(sigs: seq<string>, k: nat)
    requires Distinct(sigs) && sigs != []
    ensures Asked(sigs, k) !in SeenAfter(sigs, k) <==> k < |sigs| || |sigs| > CAP
  {
    if |sigs| > CAP {
      ManyForget(sigs, k);
      WindowMisses(sigs, k);
    } else {
      if k < |sigs| {
        FirstCycle(sigs, k);
        TurnBelow(|sigs|, k);
      } else {
        LaterCycles(sigs, k);
      }
    }
  }
}
