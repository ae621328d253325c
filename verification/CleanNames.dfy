/** src/client/async_handle.rs: the names clients publish. */
module CleanNames {
  import opened Basics
  import opened Lockstep

  function WithoutDollars(s: string): string {
    if s == "" then "" else (if s[0] == '$' then "" else [s[0]]) + WithoutDollars(s[1..])
  }

  /** `replace("//", "")`: from left to right, not overlapping. */
  function WithoutPairs(s: string): string {
    if |s| < 2 then s
    else if s[0] == '/' && s[1] == '/' then WithoutPairs(s[2..])
    else [s[0]] + WithoutPairs(s[1..])
  }

  function ColonsToSlashes(s: string): string {
    if s == "" then "" else [if s[0] == ':' then '/' else s[0]] + ColonsToSlashes(s[1..])
  }

  function CleanName(name: string): string {
    ColonsToSlashes(WithoutPairs(WithoutDollars(name)))
  }

  predicate HasPair(s: string) {
    exists k | 0 <= k < |s| - 1 :: s[k] == '/' && s[k + 1] == '/'
  }

  lemma {:induction false} DollarsGone(s: string)
    ensures '$' !in WithoutDollars(s) && |WithoutDollars(s)| <= |s|
    ensures WithoutDollars(s) == s <==> '$' !in s
  {
    if s != "" {
      DollarsGone(s[1..]);
      assert s == [s[0]] + s[1..];
    }
  }

  lemma {:induction false} PairsGone(s: string, c: char)
    ensures c in WithoutPairs(s) ==> c in s
    ensures |WithoutPairs(s)| <= |s|
    ensures WithoutPairs(s) == s <==> !HasPair(s)
    decreases |s|
  {
    if |s| >= 2 {
      if s[0] == '/' && s[1] == '/' {
        PairsGone(s[2..], c);
      } else {
        PairsGone(s[1..], c);
        assert s == [s[0]] + s[1..];
        if HasPair(s) {
          var k :| 0 <= k < |s| - 1 && s[k] == '/' && s[k + 1] == '/';
          assert s[1..][k - 1] == '/' && s[1..][k] == '/';
        }
        if HasPair(s[1..]) {
          var k :| 0 <= k < |s[1..]| - 1 && s[1..][k] == '/' && s[1..][k + 1] == '/';
          assert s[k + 1] == '/' && s[k + 2] == '/';
        }
      }
    }
  }

  lemma {:induction false} ColonsGone(s: string, c: char)
    ensures ':' !in ColonsToSlashes(s) && |ColonsToSlashes(s)| == |s|
    ensures c in ColonsToSlashes(s) ==> c in s || c == '/'
    ensures ColonsToSlashes(s) == s <==> ':' !in s
  {
    if s != "" {
      ColonsGone(s[1..], c);
      assert s == [s[0]] + s[1..];
    }
  }

  /** Whatever name a user asks for, the published one contains neither `$` nor a colon. */
  lemma {:induction false} CleanNameOrdinary(name: string)
    ensures Ordinary(CleanName(name)) && ':' !in CleanName(name)
  {
    var a := WithoutDollars(name);
    DollarsGone(name);
    PairsGone(a, '$');
    ColonsGone(WithoutPairs(a), '$');
  }

  /** And exactly the names without `$`, colon and double slash are published as they are. */
  lemma {:induction false} CleanNameFixes(name: string)
    ensures CleanName(name) == name <==> '$' !in name && ':' !in name && !HasPair(name)
  {
    var a := WithoutDollars(name);
    DollarsGone(name);
    PairsGone(a, '$');
    ColonsGone(WithoutPairs(a), '$');
    hide WithoutDollars, WithoutPairs, ColonsToSlashes;
    if |CleanName(name)| == |name| {
      SameLength(name, a);
      SameLengthPairs(a);
    }
  }

  lemma {:induction false} SameLength(name: string, a: string)
    requires a == WithoutDollars(name) && |a| == |name|
    ensures a == name
  {
    if name != "" {
      DollarsGone(name[1..]);
      SameLength(name[1..], WithoutDollars(name[1..]));
      assert name == [name[0]] + name[1..];
    }
  }

  lemma {:induction false} SameLengthPairs(s: string)
    requires |WithoutPairs(s)| == |s|
    ensures WithoutPairs(s) == s
    decreases |s|
  {
    if |s| >= 2 {
      if s[0] == '/' && s[1] == '/' {
        PairsGone(s[2..], '/');
      } else {
        SameLengthPairs(s[1..]);
        assert s == [s[0]] + s[1..];
      }
    }
  }

  // ---- each step, exactly ----

  /** `$` is dropped and nothing else, piece by piece. */
  lemma {:induction false} DollarsExact(a: string, c: char, b: string)
    ensures WithoutDollars(a + [c] + b) == WithoutDollars(a) + (if c == '$' then "" else [c]) + WithoutDollars(b) && WithoutDollars("") == ""
  {
    DollarsStep(a + [c] + b);
    if a == "" {
      assert a + [c] + b == [c] + b && ([c] + b)[1..] == b;
    } else {
      DollarsExact(a[1..], c, b);
      DollarsStep(a);
      assert (a + [c] + b)[1..] == a[1..] + [c] + b && (a + [c] + b)[0] == a[0];
      hide WithoutDollars;
    }
  }

  lemma {:induction false} DollarsStep(s: string)
    requires s != ""
    ensures WithoutDollars(s) == (if s[0] == '$' then "" else [s[0]]) + WithoutDollars(s[1..])
  {}

  function Slashes(n: nat): string {
    seq(n, _ => '/')
  }

  /** Of a run of slashes all pairs are dropped. */
  lemma {:induction false} SlashRun(n: nat)
    ensures WithoutPairs(Slashes(n)) == Slashes(n % 2)
  {
    if n >= 2 {
      SlashRun(n - 2);
      assert Slashes(n)[2..] == Slashes(n - 2);
    }
  }

  /** Any other character stays, and separates the runs. */
  lemma {:induction false} PairsExact(a: string, c: char, b: string)
    requires c != '/'
    ensures WithoutPairs(a + [c] + b) == WithoutPairs(a) + [c] + WithoutPairs(b)
    decreases |a|
  {
    var s := a + [c] + b;
    if a == "" {
      assert s[0] == c && s[1..] == b;
      LonePiece(s);
      hide WithoutPairs;
    } else if |a| >= 2 && a[0] == '/' && a[1] == '/' {
      PairsExact(a[2..], c, b);
      assert s[2..] == a[2..] + [c] + b && s[0] == s[1] == '/';
      PairGone(a);
      PairGone(s);
      hide WithoutPairs;
    } else {
      PairsExact(a[1..], c, b);
      assert s[1..] == a[1..] + [c] + b && s[0] == a[0] && s[1] == if |a| == 1 then c else a[1];
      LonePiece(a);
      LonePiece(s);
      hide WithoutPairs;
    }
  }

  lemma {:induction false} PairGone(a: string)
    requires |a| >= 2 && a[0] == '/' && a[1] == '/'
    ensures WithoutPairs(a) == WithoutPairs(a[2..])
  {}

  lemma {:induction false} LonePiece(a: string)
    requires a != "" && !(|a| >= 2 && a[0] == '/' && a[1] == '/')
    ensures WithoutPairs(a) == [a[0]] + WithoutPairs(a[1..])
  {
    if |a| == 1 {
      assert a == [a[0]] && a[1..] == "";
    }
  }

  /** Colons become slashes, at their places, and nothing else changes. */
  lemma {:induction false} ColonsExact(s: string, k: nat)
    requires k < |s|
    ensures |ColonsToSlashes(s)| == |s| && ColonsToSlashes(s)[k] == if s[k] == ':' then '/' else s[k]
  {
    ColonsGone(s, '/');
    if k > 0 {
      ColonsExact(s[1..], k - 1);
    }
  }

  /** The steps, in order. */
  lemma {:induction false} CleanNameSteps(name: string, a: string, b: string)
    requires a == WithoutDollars(name) && b == WithoutPairs(a)
    ensures |CleanName(name)| == |b| && forall k | 0 <= k < |b| :: CleanName(name)[k] == if b[k] == ':' then '/' else b[k]
  {
    forall k | 0 <= k < |b| ensures |ColonsToSlashes(b)| == |b| && ColonsToSlashes(b)[k] == if b[k] == ':' then '/' else b[k] {
      ColonsExact(b, k);
    }
    ColonsGone(b, '/');
  }
}
