/** Application settings (src/infrastructure/config/settings.py): the database-URL
    validator, the asyncpg rewrite of the URL and the environment checks. */
module Settings {
  import opened Common

  const Plain: string := "postgresql://"
  const Asyncpg: string := "postgresql+asyncpg://"
  const Psycopg: string := "postgresql+psycopg://"

  /** Python `pat in s`. */
  predicate Contains(s: string, pat: string)
    decreases |s|
  {
    StartsWith(s, pat) || (s != [] && Contains(s[1..], pat))
  }

  /** Python `s.replace(pat, rep)`: every occurrence, scanning left to right
      without overlaps. */
  function ReplaceAll(s: string, pat: string, rep: string): string
    requires |pat| > 0
    decreases |s|
  {
    if |s| < |pat| then s
    else if s[..|pat|] == pat then rep + ReplaceAll(s[|pat|..], pat, rep)
    else [s[0]] + ReplaceAll(s[1..], pat, rep)
  }

  // ---------------------------------------------------------------------------
  // Validation

  datatype UrlError = EmptyUrl | NotPostgres

  /** `validate_database_url`. */
  function ValidateDatabaseUrl(v: string): (r: Result<string, UrlError>)
    ensures r.Success? <==> StartsWith(v, Plain) || StartsWith(v, Asyncpg) || StartsWith(v, Psycopg)
    ensures r.Success? ==> r.value == v
    ensures v == [] ==> r == Failure(EmptyUrl)
    ensures v != [] && r.Failure? ==> r == Failure(NotPostgres)
  {
    if v == [] then Failure(EmptyUrl)
    else if !(StartsWith(v, Plain) || StartsWith(v, Asyncpg) || StartsWith(v, Psycopg)) then Failure(NotPostgres)
    else Success(v)
  }

  // ---------------------------------------------------------------------------
  // The asyncpg rewrite

  /** `async_database_url`. */
  function AsyncUrl(u: string): string
  {
    if Contains(u, Plain) then ReplaceAll(u, Plain, Asyncpg)
    else if Contains(u, Psycopg) then ReplaceAll(u, Psycopg, Asyncpg)
    else u
  }

  /** The rewrite the database client applies again to the URL it is given
      (src/infrastructure/database/client.py:27). */
  function ClientUrl(u: string): string
  {
    ReplaceAll(u, Plain, Asyncpg)
  }

  /** A string without an occurrence is left alone. */
  lemma {:induction false} ReplaceWithoutOccurrence(s: string, pat: string, rep: string)
    requires |pat| > 0
    requires !Contains(s, pat)
    ensures ReplaceAll(s, pat, rep) == s
    decreases |s|
  {
    if |s| >= |pat| {
      ReplaceWithoutOccurrence(s[1..], pat, rep);
      assert s == [s[0]] + s[1..];
    }
  }

  /** A replacement longer than the pattern lengthens every string with an
      occurrence. */
  lemma {:induction false} ReplaceGrows(s: string, pat: string, rep: string)
    requires |pat| > 0 && |rep| > |pat|
    ensures |ReplaceAll(s, pat, rep)| >= |s|
    ensures Contains(s, pat) ==> |ReplaceAll(s, pat, rep)| > |s|
    decreases |s|
  {
    if |s| >= |pat| {
      if s[..|pat|] == pat {
        ReplaceGrows(s[|pat|..], pat, rep);
      } else {
        ReplaceGrows(s[1..], pat, rep);
      }
    } else {
      NoShortOccurrence(s, pat);
    }
  }

  /** A result of the rewrite starts with a pattern that does not hold the first
      character of the replacement only if the original string did. */
  lemma {:induction false} StartOfReplace(t: string, pat: string, rep: string, q: string)
    requires |pat| > 0 && |rep| > 0
    ensures rep[0] !in q && StartsWith(ReplaceAll(t, pat, rep), q) ==> StartsWith(t, q)
    decreases |t|
  {
    var r := ReplaceAll(t, pat, rep);
    if q != [] && |t| >= |pat| {
      if t[..|pat|] == pat {
        assert r[0] == rep[0];
        assert q[0] in q;
      } else {
        var tail := ReplaceAll(t[1..], pat, rep);
        assert r == [t[0]] + tail;
        StartOfReplace(t[1..], pat, rep, q[1..]);
        if rep[0] !in q && StartsWith(r, q) {
          assert StartsWith(tail, q[1..]) by {
            assert tail[..|q| - 1] == r[1..|q|];
          }
          assert forall x :: x in q[1..] ==> x in q;
          assert t[..|q|] == [t[0]] + t[1..][..|q| - 1];
        }
      }
    }
  }

  /** No suffix of the asyncpg prefix starts the plain prefix. */
  lemma AsyncpgHidesPlain(w: string, t: string)
    requires 0 < |w| <= |Asyncpg| && w == Asyncpg[|Asyncpg| - |w|..]
    ensures !StartsWith(w + t, Plain)
  {
    var i := |Asyncpg| - |w|;
    assert (w + t)[0] == w[0] == Asyncpg[i];
    if i == 0 {
      assert (w + t)[10] == w[10] == '+';
    } else if i == 16 {
      assert (w + t)[1] == w[1] == 'g';
    } else {
      assert i == 1 || i == 2 || i == 3 || i == 4 || i == 5 || i == 6 || i == 7 || i == 8
        || i == 9 || i == 10 || i == 11 || i == 12 || i == 13 || i == 14 || i == 15
        || i == 17 || i == 18 || i == 19 || i == 20;
      assert Asyncpg[i] != 'p';
    }
  }

  /** A prefix none of whose suffixes starts an occurrence is copied unchanged. */
  lemma {:induction false} SkipPrefix(w: string, t: string, pat: string, rep: string)
    requires |pat| > 0
    requires forall k :: 0 <= k < |w| ==> !StartsWith(w[k..] + t, pat)
    ensures ReplaceAll(w + t, pat, rep) == w + ReplaceAll(t, pat, rep)
    decreases |w|
  {
    if w == [] {
      assert w + t == t;
    } else {
      var x := w + t;
      assert x[1..] == w[1..] + t;
      assert !StartsWith(w[0..] + t, pat);
      assert w[0..] == w;
      forall k | 0 <= k < |w[1..]|
        ensures !StartsWith(w[1..][k..] + t, pat)
      {
        assert w[1..][k..] == w[k + 1..];
      }
      SkipPrefix(w[1..], t, pat, rep);
      if |x| < |pat| {
        NoShortOccurrence(t, pat);
        ReplaceWithoutOccurrence(t, pat, rep);
      } else {
        assert x[..|pat|] != pat;
      }
    }
  }

  /** Rewriting the plain prefix scans over an asyncpg prefix unchanged. */
  lemma SkipAsyncpg(t: string)
    ensures ClientUrl(Asyncpg + t) == Asyncpg + ClientUrl(t)
  {
    forall k | 0 <= k < |Asyncpg|
      ensures !StartsWith(Asyncpg[k..] + t, Plain)
    {
      AsyncpgHidesPlain(Asyncpg[k..], t);
    }
    SkipPrefix(Asyncpg, t, Plain, Asyncpg);
  }

  /** A character followed by a rewritten string starts the plain prefix only if
      the character and the original string did. */
  lemma ConsStartsPlain(c: char, u: string, pat: string)
    requires |pat| > 0
    requires StartsWith([c] + ReplaceAll(u, pat, Asyncpg), Plain)
    ensures StartsWith([c] + u, Plain)
  {
    var q := Plain[1..];
    assert q == "ostgresql://";
    var r := ReplaceAll(u, pat, Asyncpg);
    assert StartsWith(r, q) by {
      assert r[..|q|] == ([c] + r)[1..|Plain|];
    }
    StartOfReplace(u, pat, Asyncpg, q);
    assert ([c] + u)[..|Plain|] == [c] + u[..|q|];
    assert c == Plain[0];
  }

  /** Reapplying the plain rewrite to a string rewritten from a string without the
      plain prefix changes nothing. */
  lemma {:induction false} PlainRewriteStable(u: string, pat: string)
    requires |pat| > 0
    requires !Contains(u, Plain)
    ensures ClientUrl(ReplaceAll(u, pat, Asyncpg)) == ReplaceAll(u, pat, Asyncpg)
    decreases |u|
  {
    var r := ReplaceAll(u, pat, Asyncpg);
    if |u| < |pat| {
      ReplaceWithoutOccurrence(u, Plain, Asyncpg);
    } else if u[..|pat|] == pat {
      var rest := u[|pat|..];
      NoOccurrenceInSuffix(u, |pat|);
      PlainRewriteStable(rest, pat);
      SkipAsyncpg(ReplaceAll(rest, pat, Asyncpg));
    } else {
      var tail := ReplaceAll(u[1..], pat, Asyncpg);
      assert r == [u[0]] + tail;
      NoOccurrenceInSuffix(u, 1);
      PlainRewriteStable(u[1..], pat);
      assert u == [u[0]] + u[1..];
      if StartsWith(r, Plain) {
        ConsStartsPlain(u[0], u[1..], pat);
      }
      assert !StartsWith(r, Plain);
      if |r| < |Plain| {
        NoShortOccurrence(r, Plain);
        ReplaceWithoutOccurrence(r, Plain, Asyncpg);
      } else {
        assert r[1..] == tail;
      }
    }
  }

  lemma {:induction false} NoOccurrenceInSuffix(u: string, k: nat)
    requires k <= |u|
    requires !Contains(u, Plain)
    ensures !Contains(u[k..], Plain)
    decreases k
  {
    if k > 0 {
      NoOccurrenceInSuffix(u[1..], k - 1);
      assert u[1..][k - 1..] == u[k..];
    }
  }

  /** The plain rewrite is idempotent. */
  lemma {:induction false} ClientUrlIdempotent(u: string)
    ensures ClientUrl(ClientUrl(u)) == ClientUrl(u)
    decreases |u|
  {
    var r := ClientUrl(u);
    if |u| < |Plain| {
      NoShortOccurrence(u, Plain);
      ReplaceWithoutOccurrence(u, Plain, Asyncpg);
    } else if u[..|Plain|] == Plain {
      var rest := u[|Plain|..];
      ClientUrlIdempotent(rest);
      SkipAsyncpg(ClientUrl(rest));
    } else {
      var tail := ClientUrl(u[1..]);
      assert r == [u[0]] + tail;
      ClientUrlIdempotent(u[1..]);
      assert u == [u[0]] + u[1..];
      if StartsWith(r, Plain) {
        ConsStartsPlain(u[0], u[1..], Plain);
      }
      if |r| < |Plain| {
        NoShortOccurrence(r, Plain);
        ReplaceWithoutOccurrence(r, Plain, Asyncpg);
      } else {
        assert r[1..] == tail;
      }
    }
  }

  lemma {:induction false} NoShortOccurrence(s: string, pat: string)
    requires |s| < |pat|
    ensures !Contains(s, pat)
    decreases |s|
  {
    if s != [] {
      NoShortOccurrence(s[1..], pat);
    }
  }

  /** The client's second rewrite of the asyncpg URL is a no-op, so the engine
      receives `async_database_url` as computed. */
  lemma ClientKeepsAsyncUrl(u: string)
    ensures ClientUrl(AsyncUrl(u)) == AsyncUrl(u)
  {
    if Contains(u, Plain) {
      ClientUrlIdempotent(u);
    } else if Contains(u, Psycopg) {
      PlainRewriteStable(u, Psycopg);
    } else {
      ReplaceWithoutOccurrence(u, Plain, Asyncpg);
    }
  }

  /** The rewritten URL never holds the plain `postgresql://` prefix. */
  lemma AsyncUrlHasNoPlain(u: string)
    ensures !Contains(AsyncUrl(u), Plain)
  {
    ClientKeepsAsyncUrl(u);
    ReplaceGrows(AsyncUrl(u), Plain, Asyncpg);
  }

  /** A URL mentioning neither driver spelling is returned unchanged. */
  lemma AsyncUrlUnchanged(u: string)
    requires !Contains(u, Plain) && !Contains(u, Psycopg)
    ensures AsyncUrl(u) == u
  {
  }

  // ---------------------------------------------------------------------------
  // Environments

  datatype Environment = Development | Testing | Staging | Production

  predicate IsProduction(e: Environment) { e == Production }
  predicate IsDevelopment(e: Environment) { e == Development }
  predicate IsTesting(e: Environment) { e == Testing }

  /** Exactly one of the three checks holds, except for staging, where none does. */
  lemma EnvironmentChecks(e: Environment)
    ensures e != Staging ==>
      (IsProduction(e) && !IsDevelopment(e) && !IsTesting(e))
      || (!IsProduction(e) && IsDevelopment(e) && !IsTesting(e))
      || (!IsProduction(e) && !IsDevelopment(e) && IsTesting(e))
    ensures e == Staging ==> !IsProduction(e) && !IsDevelopment(e) && !IsTesting(e)
  {
  }
}
