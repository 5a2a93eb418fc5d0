/** Whole-word owner matching: a guarded substring search over normalised words. */
module OwnerMatch {

  /** The characters of a word, `[a-z0-9]`. */
  predicate Alnum(c: char) {
    'a' <= c <= 'z' || '0' <= c <= '9'
  }

  function RunLength(s: string): (n: nat)
    ensures n <= |s|
    ensures forall i :: 0 <= i < n ==> Alnum(s[i])
    ensures n < |s| ==> !Alnum(s[n])
    ensures s != "" && Alnum(s[0]) ==> n > 0
  {
    if s != "" && Alnum(s[0]) then 1 + RunLength(s[1..]) else 0
  }

  /** `re.findall(r"[a-z0-9]+", s)`: the maximal runs of word characters. */
  function Tokens(s: string): (ts: seq<string>)
    ensures AreWords(ts)
    decreases |s|
  {
    if s == "" then []
    else if Alnum(s[0]) then [s[..RunLength(s)]] + Tokens(s[RunLength(s)..])
    else Tokens(s[1..])
  }

  predicate AreWords(ts: seq<string>) {
    forall t :: t in ts ==> t != "" && forall i :: 0 <= i < |t| ==> Alnum(t[i])
  }

  /** `" ".join(ts)` */
  function Join(ts: seq<string>): string {
    if ts == [] then "" else if |ts| == 1 then ts[0] else ts[0] + " " + Join(ts[1..])
  }

  /** `p` occurs in `w` at `i` with no word character right before or after it. */
  predicate GuardedAt(w: string, p: string, i: nat) {
    && i + |p| <= |w| && w[i..i + |p|] == p
    && (i > 0 ==> !Alnum(w[i - 1]))
    && (i + |p| < |w| ==> !Alnum(w[i + |p|]))
  }

  /** The regular expression search. */
  predicate Search(w: string, p: string) {
    exists i :: 0 <= i <= |w| && GuardedAt(w, p, i)
  }

  type Fold = string -> string

  /** `_match`, for any case-folding function. */
  predicate Match(owner: string, patterns: seq<string>, fold: Fold) {
    exists p :: p in patterns && Tokens(fold(p)) != [] && Search(Join(Tokens(fold(owner))), Join(Tokens(fold(p))))
  }

  /** `ps` is a run of consecutive words of `ws`. */
  ghost predicate WordRun(ws: seq<string>, ps: seq<string>) {
    exists k :: RunAt(ws, ps, k)
  }

  predicate RunAt(ws: seq<string>, ps: seq<string>, k: int) {
    0 <= k <= |ws| - |ps| && ws[k..k + |ps|] == ps
  }

  lemma JoinSplit(ts: seq<string>)
    requires |ts| > 1
    ensures |Join(ts)| == |ts[0]| + 1 + |Join(ts[1..])|
    ensures Join(ts)[..|ts[0]|] == ts[0]
    ensures Join(ts)[|ts[0]|] == ' '
    ensures Join(ts)[|ts[0]| + 1..] == Join(ts[1..])
  {
  }

  lemma JoinFirst(ts: seq<string>)
    requires ts != []
    ensures |Join(ts)| >= |ts[0]| && Join(ts)[..|ts[0]|] == ts[0]
    ensures |Join(ts)| > |ts[0]| ==> !Alnum(Join(ts)[|ts[0]|])
  {
    if |ts| > 1 {
      JoinSplit(ts);
    }
  }

  /** A guarded occurrence at the front is a run of whole words at the front. */
  lemma {:induction false} PrefixIsWords(ws: seq<string>, ps: seq<string>)
    requires AreWords(ws) && AreWords(ps) && ws != [] && ps != []
    requires GuardedAt(Join(ws), Join(ps), 0)
    ensures |ps| <= |ws| && ws[..|ps|] == ps
  {
    var w, p := Join(ws), Join(ps);
    var t, q := ws[0], ps[0];
    JoinFirst(ws);
    JoinFirst(ps);
    assert w[..|p|] == p;
    SameFirstWord(w, p, t, q);
    if |ps| > 1 {
      JoinSplit(ps);
      assert w[|q|] == p[|q|] == ' ';
      JoinSplit(ws);
      PastPrefix(w, p, |t| + 1);
      PrefixIsWords(ws[1..], ps[1..]);
      assert ws[..|ps|] == [t] + ws[1..][..|ps| - 1];
    } else {
      assert ws[..1] == [t];
    }
  }

  /** What follows a shared beginning still occurs at the front. */
  lemma PastPrefix(w: string, p: string, d: nat)
    requires GuardedAt(w, p, 0) && d <= |p|
    ensures GuardedAt(w[d..], p[d..], 0)
  {
    var w', p' := w[d..], p[d..];
    assert w'[..|p'|] == w[d..|p|] == p';
    if |p'| < |w'| {
      assert w'[|p'|] == w[|p|];
    }
  }

  lemma SameFirstWord(w: string, p: string, t: string, q: string)
    requires t != "" && q != "" && |t| <= |w| && |q| <= |p| <= |w| && w[..|t|] == t && p[..|q|] == q && w[..|p|] == p
    requires forall i :: 0 <= i < |t| ==> Alnum(t[i])
    requires forall i :: 0 <= i < |q| ==> Alnum(q[i])
    requires |t| < |w| ==> !Alnum(w[|t|])
    requires |q| < |p| ==> !Alnum(p[|q|])
    requires |p| < |w| ==> !Alnum(w[|p|])
    ensures t == q
  {
    assert forall i :: 0 <= i < |t| ==> w[i] == t[i];
    assert forall i :: 0 <= i < |p| ==> w[i] == p[i];
    assert forall i :: 0 <= i < |q| ==> w[i] == q[i];
    assert |q| < |w| ==> !Alnum(w[|q|]);
    assert |t| == |q|;
  }

  lemma {:induction false} OccurrenceIsRun(ws: seq<string>, ps: seq<string>, i: nat)
    requires AreWords(ws) && AreWords(ps) && ws != [] && ps != [] && GuardedAt(Join(ws), Join(ps), i)
    ensures WordRun(ws, ps)
    decreases |ws|
  {
    JoinFirst(ps);
    assert ps[0] in ps;
    var w, p := Join(ws), Join(ps);
    JoinFirst(ws);
    var t := ws[0];
    if i == 0 {
      PrefixIsWords(ws, ps);
      assert RunAt(ws, ps, 0);
    } else {
      var rest := ws[1..];
      PastFirstWord(ws, p, i);
      JoinSplit(ws);
      ShiftOccurrence(w, p, Join(rest), i, |t| + 1);
      OccurrenceIsRun(rest, ps, i - |t| - 1);
      RunInRest(ws, ps);
    }
  }

  lemma RunInRest(ws: seq<string>, ps: seq<string>)
    requires ws != [] && WordRun(ws[1..], ps)
    ensures WordRun(ws, ps)
  {
    var k :| RunAt(ws[1..], ps, k);
    assert ws[k + 1..k + 1 + |ps|] == ws[1..][k..k + |ps|];
    assert RunAt(ws, ps, k + 1);
  }

  lemma PastFirstWord(ws: seq<string>, p: string, i: nat)
    requires AreWords(ws) && ws != [] && p != "" && 0 < i && GuardedAt(Join(ws), p, i)
    ensures i > |ws[0]| && |ws| > 1
  {
    JoinFirst(ws);
    var w, t := Join(ws), ws[0];
    assert t in ws;
    assert forall n :: 0 <= n < |t| ==> w[n] == t[n];
  }

  lemma ShiftOccurrence(w: string, p: string, w': string, i: nat, d: nat)
    requires d <= i && d <= |w| && w' == w[d..] && GuardedAt(w, p, i)
    ensures GuardedAt(w', p, i - d)
  {
    assert w'[i - d..i - d + |p|] == w[i..i + |p|];
  }

  lemma {:induction false} FrontRunOccurs(ws: seq<string>, ps: seq<string>)
    requires ps != [] && |ps| <= |ws| && ws[..|ps|] == ps
    ensures GuardedAt(Join(ws), Join(ps), 0)
  {
    assert ws[0] == ws[..|ps|][0] == ps[0];
    JoinFirst(ws);
    if |ps| > 1 {
      assert ws[1..][..|ps| - 1] == ws[..|ps|][1..];
      FrontRunOccurs(ws[1..], ps[1..]);
      JoinSplit(ws);
      JoinSplit(ps);
    } else {
      assert Join(ps) == ps[0];
    }
  }

  lemma {:induction false} RunOccurs(ws: seq<string>, ps: seq<string>, k: nat) returns (i: nat)
    requires ps != [] && RunAt(ws, ps, k)
    ensures GuardedAt(Join(ws), Join(ps), i)
  {
    if k == 0 {
      assert ws[..|ps|] == ps;
      FrontRunOccurs(ws, ps);
      i := 0;
    } else {
      assert ws[1..][k - 1..k - 1 + |ps|] == ps;
      var j := RunOccurs(ws[1..], ps, k - 1);
      JoinSplit(ws);
      i := j + |ws[0]| + 1;
      UnshiftOccurrence(Join(ws), Join(ps), Join(ws[1..]), j, |ws[0]| + 1);
    }
  }

  lemma UnshiftOccurrence(w: string, p: string, w': string, j: nat, d: nat)
    requires 0 < d <= |w| && w' == w[d..] && GuardedAt(w', p, j)
    requires j == 0 ==> !Alnum(w[d - 1])
    ensures GuardedAt(w, p, j + d)
  {
    assert w[j + d..j + d + |p|] == w'[j..j + |p|];
  }

  /** The guarded search on joined words finds exactly the runs of whole words. */
  lemma SearchIsWordRun(ws: seq<string>, ps: seq<string>)
    requires AreWords(ws) && AreWords(ps) && ps != []
    ensures Search(Join(ws), Join(ps)) <==> WordRun(ws, ps)
  {
    if Search(Join(ws), Join(ps)) {
      var i :| 0 <= i <= |Join(ws)| && GuardedAt(Join(ws), Join(ps), i);
      JoinFirst(ps);
      assert ps[0] in ps;
      assert ws != [];
      OccurrenceIsRun(ws, ps, i);
    }
    if WordRun(ws, ps) {
      var k :| RunAt(ws, ps, k);
      var i := RunOccurs(ws, ps, k);
    }
  }

  ghost predicate SomePatternIsRun(owner: string, patterns: seq<string>, fold: Fold) {
    exists p :: p in patterns && Tokens(fold(p)) != [] && WordRun(Tokens(fold(owner)), Tokens(fold(p)))
  }

  /** An owner matches exactly when some pattern's words appear in it as a run of whole words. */
  lemma MatchIsWordRun(owner: string, patterns: seq<string>, fold: Fold)
    ensures Match(owner, patterns, fold) <==> SomePatternIsRun(owner, patterns, fold)
  {
    forall p | p in patterns && Tokens(fold(p)) != []
      ensures Search(Join(Tokens(fold(owner))), Join(Tokens(fold(p)))) <==>
                WordRun(Tokens(fold(owner)), Tokens(fold(p)))
    {
      SearchIsWordRun(Tokens(fold(owner)), Tokens(fold(p)));
    }
  }

  lemma {:induction false} RunLengthOf(t: string, rest: string)
    requires forall i :: 0 <= i < |t| ==> Alnum(t[i])
    requires rest == "" || !Alnum(rest[0])
    ensures RunLength(t + rest) == |t|
  {
    if t != "" {
      RunLengthOf(t[1..], rest);
      assert (t + rest)[1..] == t[1..] + rest;
    } else {
      assert t + rest == rest;
    }
  }

  /** Joining words and splitting them again loses nothing: the search works on a normal form. */
  lemma {:induction false} TokensOfJoin(ts: seq<string>)
    requires AreWords(ts)
    ensures Tokens(Join(ts)) == ts
  {
    if ts != [] {
      assert ts[0] in ts;
      var rest := if |ts| > 1 then " " + Join(ts[1..]) else "";
      assert Join(ts) == ts[0] + rest;
      RunLengthOf(ts[0], rest);
      assert Join(ts)[|ts[0]|..] == rest;
      if |ts| > 1 {
        TokensOfJoin(ts[1..]);
        assert rest[1..] == Join(ts[1..]);
      }
    }
  }

  datatype Classification = Unknown | Excluded | Preferred | Eligible

  /** `_classification`: exclusion is decided before preference. */
  function Classify(owner: string, preferred: seq<string>, excluded: seq<string>, fold: Fold): Classification {
    if owner == "" then Unknown
    else if Match(owner, excluded, fold) then Excluded
    else if Match(owner, preferred, fold) then Preferred else Eligible
  }

  lemma ClassifyByWords(owner: string, preferred: seq<string>, excluded: seq<string>, fold: Fold)
    requires owner != ""
    ensures Classify(owner, preferred, excluded, fold) == Excluded <==> SomePatternIsRun(owner, excluded, fold)
    ensures Classify(owner, preferred, excluded, fold) == Preferred <==>
            SomePatternIsRun(owner, preferred, fold) && !SomePatternIsRun(owner, excluded, fold)
  {
    MatchIsWordRun(owner, excluded, fold);
    MatchIsWordRun(owner, preferred, fold);
  }
}
