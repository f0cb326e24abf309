/** Injection bindings and their conflict resolver (bindings.py). */
module Bindings {
  import opened Prelude

  type Context = map<string, string>

  datatype InjectionBinding = InjectionBinding(
    id: string, correctionId: string, correctionRevision: int,
    selector: Context, activationScope: Context,
    priority: int, active: bool,
    promotionId: Option<string>, adapter: Option<string>, adapterVersion: Option<string>)
  {
    function Specificity(): nat { |selector| }

    predicate Executable() { promotionId.Some? && adapter.Some? && adapterVersion.Some? }

    predicate Matches(context: Context) {
      active && forall k | k in selector :: k in context && context[k] == selector[k]
    }
  }

  /** `selector_within_scope`. */
  predicate WithinScope(selector: Context, scope: Context) {
    scope != map[] && forall k | k in scope :: k in selector && selector[k] == scope[k]
  }

  predicate Selector(selector: Context) {
    selector != map[] && forall k | k in selector :: !White(k) && !White(selector[k])
  }

  /** The constructor accepts the binding. */
  predicate Constructible(b: InjectionBinding) {
    && b.correctionRevision >= 1
    && Selector(b.selector) && Selector(b.activationScope) && WithinScope(b.selector, b.activationScope)
    && (b.promotionId.Some? || b.adapter.Some? || b.adapterVersion.Some? ==>
          b.Executable() && !White(b.promotionId.value) && !White(b.adapter.value) && !White(b.adapterVersion.value))
  }

  // ---- the code: filter, then maxima ----

  function Filter(bs: seq<InjectionBinding>, p: InjectionBinding -> bool): seq<InjectionBinding> {
    if bs == [] then []
    else if p(bs[0]) then [bs[0]] + Filter(bs[1..], p)
    else Filter(bs[1..], p)
  }

  lemma {:induction false} FilterCount(bs: seq<InjectionBinding>, p: InjectionBinding -> bool, b: InjectionBinding)
    ensures multiset(Filter(bs, p))[b] == if p(b) then multiset(bs)[b] else 0
  {
    if bs != [] {
      assert bs == [bs[0]] + bs[1..];
      FilterCount(bs[1..], p, b);
    }
  }

  function MaxBy(bs: seq<InjectionBinding>, f: InjectionBinding -> int): (m: int)
    requires bs != []
    ensures exists b :: b in bs && f(b) == m
    ensures forall b | b in bs :: f(b) <= m
  {
    if |bs| == 1 then f(bs[0])
    else
      var rest := MaxBy(bs[1..], f);
      assert bs == [bs[0]] + bs[1..];
      if f(bs[0]) > rest then f(bs[0]) else rest
  }

  /** `[b for b in bs if f(b) == max(f(b) for b in bs)]`. */
  function Highest(bs: seq<InjectionBinding>, f: InjectionBinding -> int): seq<InjectionBinding>
    requires bs != []
  {
    var m := MaxBy(bs, f);
    Filter(bs, (b: InjectionBinding) => f(b) == m)
  }

  lemma HighestCount(bs: seq<InjectionBinding>, f: InjectionBinding -> int, b: InjectionBinding)
    requires bs != []
    ensures multiset(Highest(bs, f))[b] == if IsHighest(bs, f, b) then multiset(bs)[b] else 0
    ensures b in Highest(bs, f) <==> IsHighest(bs, f, b)
    ensures Highest(bs, f) != []
  {
    var m := MaxBy(bs, f);
    FilterCount(bs, (c: InjectionBinding) => f(c) == m, b);
    var w :| w in bs && f(w) == m;
    FilterCount(bs, (c: InjectionBinding) => f(c) == m, w);
    assert multiset(Highest(bs, f))[w] > 0;
    assert b in Highest(bs, f) <==> multiset(Highest(bs, f))[b] > 0;
  }

  predicate IsHighest(bs: seq<InjectionBinding>, f: InjectionBinding -> int, b: InjectionBinding) {
    b in bs && forall c | c in bs :: f(c) <= f(b)
  }

  const Priority := (b: InjectionBinding) => b.priority
  const Specificity := (b: InjectionBinding) => b.Specificity() as int
  const Revision := (b: InjectionBinding) => b.correctionRevision

  function CorrectionIds(bs: seq<InjectionBinding>): set<string> {
    set b | b in bs :: b.correctionId
  }

  /** BindingConflictError, with the tied bindings whose ids its message lists in sorted order. */
  datatype Conflict = Conflict(tied: multiset<InjectionBinding>)

  function Candidates(bs: seq<InjectionBinding>, context: Context): seq<InjectionBinding> {
    Filter(bs, (b: InjectionBinding) => b.Matches(context))
  }

  /** The matching bindings of highest priority and then highest specificity. */
  function Tied(bs: seq<InjectionBinding>, context: Context): seq<InjectionBinding> {
    var candidates := Candidates(bs, context);
    if candidates == [] then []
    else
      HighestCount(candidates, Priority, candidates[0]);
      Highest(Highest(candidates, Priority), Specificity)
  }

  function Resolve(bs: seq<InjectionBinding>, context: Context): Result<Option<InjectionBinding>, Conflict> {
    var tied := Tied(bs, context);
    if tied == [] then Ok(None)
    else if |tied| == 1 then Ok(Some(tied[0]))
    else
      var newest := Highest(tied, Revision);
      if |CorrectionIds(tied)| == 1 && |newest| == 1 then Ok(Some(newest[0]))
      else Error(Conflict(multiset(tied)))
  }

  // ---- the choice it makes, declared without filters, maxima or input order ----

  /** The binding is active, and each key and value of its selector is in the context. */
  ghost predicate Fits(b: InjectionBinding, context: Context) { b.active && b.selector.Items <= context.Items }

  lemma MatchesExactly(b: InjectionBinding, context: Context)
    ensures b.Matches(context) <==> Fits(b, context)
  {
    if Fits(b, context) {
      forall k | k in b.selector ensures k in context && context[k] == b.selector[k] {
        assert (k, b.selector[k]) in b.selector.Items;
      }
    }
  }

  ghost predicate Visible(text: string) { exists i :: 0 <= i < |text| && text[i] !in WHITE }

  /** A selector as the constructor takes it: not empty, with keys and values that are not all white space. */
  ghost predicate Given(selector: Context) {
    selector.Items != {} && forall p | p in selector.Items :: Visible(p.0) && Visible(p.1)
  }

  lemma SelectorExactly(selector: Context)
    ensures Selector(selector) <==> Given(selector)
  {
    if Selector(selector) {
      var k :| k in selector;
      assert (k, selector[k]) in selector.Items;
      forall p | p in selector.Items ensures Visible(p.0) && Visible(p.1) { assert !White(p.0) && !White(p.1); }
    }
    if Given(selector) {
      var p :| p in selector.Items;
      assert p.0 in selector;
      forall k | k in selector ensures !White(k) && !White(selector[k]) { assert (k, selector[k]) in selector.Items; }
    }
  }

  lemma WithinExactly(selector: Context, scope: Context)
    ensures WithinScope(selector, scope) <==> scope.Items != {} && scope.Items <= selector.Items
  {
    if WithinScope(selector, scope) {
      var k :| k in scope;
      assert (k, scope[k]) in scope.Items;
    }
    if scope.Items != {} && scope.Items <= selector.Items {
      var p :| p in scope.Items;
      assert p.0 in scope;
      forall k | k in scope ensures k in selector && selector[k] == scope[k] { assert (k, scope[k]) in scope.Items; }
    }
  }

  ghost predicate VisibleIf(text: Option<string>) { text.Some? && Visible(text.value) }

  /**
   The constructor accepts exactly a positive revision, two selectors of which the first lies within the second,
   and either no execution identity or a whole one with visible parts.
   */
  lemma ConstructibleExactly(b: InjectionBinding)
    ensures Constructible(b) <==>
      && b.correctionRevision > 0
      && Given(b.selector) && Given(b.activationScope) && b.activationScope.Items <= b.selector.Items
      && ((b.promotionId.None? && b.adapter.None? && b.adapterVersion.None?)
          || (VisibleIf(b.promotionId) && VisibleIf(b.adapter) && VisibleIf(b.adapterVersion)))
  {
    SelectorExactly(b.selector);
    SelectorExactly(b.activationScope);
    WithinExactly(b.selector, b.activationScope);
  }

  /** A binding never reaches beyond its activation scope: every context it fits holds the whole scope. */
  lemma FitsWithinScope(b: InjectionBinding, context: Context)
    requires Constructible(b) && Fits(b, context)
    ensures b.activationScope.Items <= context.Items
  {
    ConstructibleExactly(b);
  }

  predicate Beats(a: InjectionBinding, b: InjectionBinding) {
    || a.priority > b.priority
    || (a.priority == b.priority && |a.selector| > |b.selector|)
    || (&& a.priority == b.priority && |a.selector| == |b.selector|
        && a.correctionId == b.correctionId && a.correctionRevision > b.correctionRevision)
  }

  /** w matches, occurs once, and beats every other matching binding. */
  ghost predicate Winner(bs: multiset<InjectionBinding>, context: Context, w: InjectionBinding) {
    && bs[w] == 1 && Fits(w, context)
    && forall b | b in bs && b != w && Fits(b, context) :: Beats(w, b)
  }

  ghost predicate NotOutranked(bs: multiset<InjectionBinding>, context: Context, b: InjectionBinding) {
    && Fits(b, context)
    && forall c | c in bs && Fits(c, context) :: RanksAtMost(c, b)
  }

  lemma CandidateCount(bs: seq<InjectionBinding>, context: Context, b: InjectionBinding)
    ensures multiset(Candidates(bs, context))[b] == if Fits(b, context) then multiset(bs)[b] else 0
    ensures b in Candidates(bs, context) <==> b in bs && Fits(b, context)
  {
    MatchesExactly(b, context);
    FilterCount(bs, (c: InjectionBinding) => c.Matches(context), b);
    assert b in Candidates(bs, context) <==> multiset(Candidates(bs, context))[b] > 0;
  }

  predicate RanksAtMost(a: InjectionBinding, b: InjectionBinding) {
    a.priority < b.priority || (a.priority == b.priority && |a.selector| <= |b.selector|)
  }

  /** The two maxima in a row pick the lexicographic maximum. */
  lemma LexicographicCount(cs: seq<InjectionBinding>, b: InjectionBinding)
    requires cs != []
    ensures Highest(cs, Priority) != [] && Highest(Highest(cs, Priority), Specificity) != []
    ensures multiset(Highest(Highest(cs, Priority), Specificity))[b] ==
      if b in cs && forall c | c in cs :: RanksAtMost(c, b) then multiset(cs)[b] else 0
  {
    HighestCount(cs, Priority, b);
    var top := Highest(cs, Priority);
    forall c ensures c in top <==> IsHighest(cs, Priority, c) { HighestCount(cs, Priority, c); }
    HighestCount(top, Specificity, b);
    if b in cs {
      if forall c | c in cs :: RanksAtMost(c, b) {
        assert IsHighest(cs, Priority, b);
        assert IsHighest(top, Specificity, b);
      } else {
        var c :| c in cs && !RanksAtMost(c, b);
        if IsHighest(cs, Priority, b) {
          assert IsHighest(cs, Priority, c);
        }
      }
    }
  }

  /** The tied bindings, with their multiplicities, are the matching ones that none outranks. */
  lemma TiedCount(bs: seq<InjectionBinding>, context: Context, b: InjectionBinding)
    ensures multiset(Tied(bs, context))[b] == if NotOutranked(multiset(bs), context, b) then multiset(bs)[b] else 0
    ensures b in Tied(bs, context) <==> b in bs && NotOutranked(multiset(bs), context, b)
  {
    var cs := Candidates(bs, context);
    CandidateCount(bs, context, b);
    if cs != [] {
      LexicographicCount(cs, b);
      forall c | c in cs ensures c in bs && Fits(c, context) { CandidateCount(bs, context, c); }
      forall c | c in bs && Fits(c, context) ensures c in cs { CandidateCount(bs, context, c); }
    }
    assert b in Tied(bs, context) <==> multiset(Tied(bs, context))[b] > 0;
  }

  lemma TiedEmpty(bs: seq<InjectionBinding>, context: Context)
    ensures Tied(bs, context) == [] <==> forall c | c in bs :: !Fits(c, context)
  {
    var cs := Candidates(bs, context);
    forall c ensures c in cs <==> c in bs && Fits(c, context) { CandidateCount(bs, context, c); }
    if cs != [] {
      assert cs[0] in cs;
      LexicographicCount(cs, cs[0]);
    }
  }

  /** Everything tied at the top ranks equally. */
  lemma TiedRank(bs: seq<InjectionBinding>, context: Context, a: InjectionBinding, b: InjectionBinding)
    requires a in Tied(bs, context) && b in bs && Fits(b, context)
    ensures b in Tied(bs, context) ==> a.priority == b.priority && |a.selector| == |b.selector|
    ensures b !in Tied(bs, context) ==> Beats(a, b)
  {
    TiedCount(bs, context, a);
    TiedCount(bs, context, b);
    if b !in Tied(bs, context) {
      var c :| c in multiset(bs) && Fits(c, context) && !RanksAtMost(c, b);
      assert RanksAtMost(c, a);
    }
  }

  /** A sequence holds exactly one element, once, when its multiset says so. */
  lemma Singleton(s: seq<InjectionBinding>, w: InjectionBinding)
    requires multiset(s)[w] == 1
    requires forall b | b in s :: b == w
    ensures s == [w]
  {
    assert multiset(s) == multiset{w} by {
      forall b ensures multiset(s)[b] == multiset{w}[b] {
        assert b in s <==> multiset(s)[b] > 0;
      }
    }
    assert |s| == |multiset(s)|;
    assert s[0] in s;
  }

  lemma SameId(bs: seq<InjectionBinding>, a: InjectionBinding, b: InjectionBinding)
    requires |CorrectionIds(bs)| == 1 && a in bs && b in bs
    ensures a.correctionId == b.correctionId
  {
    var ids := CorrectionIds(bs);
    assert a.correctionId in ids && b.correctionId in ids;
    assert |ids - {a.correctionId}| == 0;
  }

  /** The only binding left is the one that beats the rest by priority or specificity. */
  lemma SoleTiedWins(bs: seq<InjectionBinding>, context: Context, w: InjectionBinding)
    requires Tied(bs, context) == [w]
    ensures Winner(multiset(bs), context, w)
  {
    assert w in Tied(bs, context);
    TiedCount(bs, context, w);
    assert multiset([w])[w] == 1;
    forall b | b in multiset(bs) && b != w && Fits(b, context) ensures Beats(w, b) {
      TiedRank(bs, context, w, b);
    }
  }

  lemma NewestTiedWins(bs: seq<InjectionBinding>, context: Context, w: InjectionBinding)
    requires var tied := Tied(bs, context);
      tied != [] && |CorrectionIds(tied)| == 1 && Highest(tied, Revision) == [w]
    ensures Winner(multiset(bs), context, w)
  {
    var tied := Tied(bs, context);
    assert multiset([w])[w] == 1;
    HighestCount(tied, Revision, w);
    TiedCount(bs, context, w);
    forall b | b in multiset(bs) && b != w && Fits(b, context) ensures Beats(w, b) {
      TiedRank(bs, context, w, b);
      if b in tied {
        SameId(tied, w, b);
        HighestCount(tied, Revision, b);
        assert !IsHighest(tied, Revision, b);
      }
    }
  }

  /** Whoever wins is tied at the top, and everyone tied there is an older revision of the same correction. */
  lemma WinnerOverTied(bs: seq<InjectionBinding>, context: Context, w: InjectionBinding)
    requires Winner(multiset(bs), context, w)
    ensures w in Tied(bs, context) && multiset(Tied(bs, context))[w] == 1
    ensures forall b | b in Tied(bs, context) && b != w ::
      b.correctionId == w.correctionId && b.correctionRevision < w.correctionRevision
  {
    TiedCount(bs, context, w);
    forall b | b in Tied(bs, context) && b != w
      ensures b.correctionId == w.correctionId && b.correctionRevision < w.correctionRevision
    {
      TiedCount(bs, context, b);
      TiedRank(bs, context, b, w);
      assert Beats(w, b);
    }
  }

  lemma NewestOfTied(tied: seq<InjectionBinding>, w: InjectionBinding)
    requires w in tied && multiset(tied)[w] == 1
    requires forall b | b in tied && b != w ::
      b.correctionId == w.correctionId && b.correctionRevision < w.correctionRevision
    ensures Highest(tied, Revision) == [w] && CorrectionIds(tied) == {w.correctionId}
  {
    var newest := Highest(tied, Revision);
    HighestCount(tied, Revision, w);
    forall b | b in newest ensures b == w {
      HighestCount(tied, Revision, b);
    }
    Singleton(newest, w);
  }

  lemma WinnerIsResolved(bs: seq<InjectionBinding>, context: Context, w: InjectionBinding)
    requires Winner(multiset(bs), context, w)
    ensures Resolve(bs, context) == Ok(Some(w))
  {
    WinnerOverTied(bs, context, w);
    NewestOfTied(Tied(bs, context), w);
  }

  /** The resolver returns exactly the unique maximum of the matching bindings, when there is one. */
  lemma ResolvesTheWinner(bs: seq<InjectionBinding>, context: Context, w: InjectionBinding)
    ensures Resolve(bs, context) == Ok(Some(w)) <==> Winner(multiset(bs), context, w)
  {
    if Winner(multiset(bs), context, w) {
      WinnerIsResolved(bs, context, w);
    } else if Resolve(bs, context) == Ok(Some(w)) {
      if |Tied(bs, context)| == 1 {
        assert Tied(bs, context) == [w];
        SoleTiedWins(bs, context, w);
      } else {
        assert Highest(Tied(bs, context), Revision) == [w];
        NewestTiedWins(bs, context, w);
      }
    }
  }

  ghost predicate Undecided(bs: multiset<InjectionBinding>, context: Context) {
    (exists b :: b in bs && Fits(b, context)) && forall w :: !Winner(bs, context, w)
  }

  /** It returns nothing exactly when nothing matches. */
  lemma NoneOnlyWithoutMatch(bs: seq<InjectionBinding>, context: Context)
    ensures Resolve(bs, context) == Ok(None) <==> forall b | b in bs :: !Fits(b, context)
  {
    TiedEmpty(bs, context);
  }

  /** It raises exactly when something matches and no matching binding is the unique maximum. */
  lemma RaisesOnlyUndecided(bs: seq<InjectionBinding>, context: Context)
    ensures Resolve(bs, context).Error? <==> Undecided(multiset(bs), context)
  {
    NoneOnlyWithoutMatch(bs, context);
    var r := Resolve(bs, context);
    if r.Error? {
      forall w ensures !Winner(multiset(bs), context, w) { ResolvesTheWinner(bs, context, w); }
    } else if r.value.Some? {
      ResolvesTheWinner(bs, context, r.value.value);
    }
  }

  lemma SameTied(bs: seq<InjectionBinding>, cs: seq<InjectionBinding>, context: Context)
    requires multiset(bs) == multiset(cs)
    ensures multiset(Tied(bs, context)) == multiset(Tied(cs, context))
    ensures |Tied(bs, context)| == |Tied(cs, context)|
  {
    var tied, tied' := Tied(bs, context), Tied(cs, context);
    forall b ensures multiset(tied)[b] == multiset(tied')[b] {
      TiedCount(bs, context, b);
      TiedCount(cs, context, b);
    }
    assert multiset(tied) == multiset(tied');
    assert |multiset(tied)| == |tied| && |multiset(tied')| == |tied'|;
  }

  lemma SameWinner(bs: seq<InjectionBinding>, cs: seq<InjectionBinding>, context: Context, w: InjectionBinding)
    requires multiset(bs) == multiset(cs)
    ensures Resolve(bs, context) == Ok(Some(w)) <==> Resolve(cs, context) == Ok(Some(w))
  {
    ResolvesTheWinner(bs, context, w);
    ResolvesTheWinner(cs, context, w);
  }

  lemma Undetermined(bs: seq<InjectionBinding>, context: Context)
    requires Resolve(bs, context).Error? || Resolve(bs, context).value.None?
    ensures Resolve(bs, context) ==
            if Tied(bs, context) == [] then Ok(None) else Error(Conflict(multiset(Tied(bs, context))))
  {
  }

  /** The outcome, conflict report included, does not depend on the order of the input. */
  lemma OrderIndependent(bs: seq<InjectionBinding>, cs: seq<InjectionBinding>, context: Context)
    requires multiset(bs) == multiset(cs)
    ensures Resolve(bs, context) == Resolve(cs, context)
  {
    var r, r' := Resolve(bs, context), Resolve(cs, context);
    if r.Ok? && r.value.Some? {
      SameWinner(bs, cs, context, r.value.value);
    } else if r'.Ok? && r'.value.Some? {
      SameWinner(bs, cs, context, r'.value.value);
    } else {
      SameTied(bs, cs, context);
      Undetermined(bs, context);
      Undetermined(cs, context);
    }
  }

  lemma WithoutLoser(bs: multiset<InjectionBinding>, context: Context, w: InjectionBinding, b: InjectionBinding)
    requires Winner(bs, context, w) && b != w
    ensures Winner(bs - multiset{b}, context, w)
  {
  }

  lemma RemovedAt(bs: seq<InjectionBinding>, i: nat)
    requires i < |bs|
    ensures multiset(bs[..i] + bs[i + 1..]) == multiset(bs) - multiset{bs[i]}
  {
    assert bs == bs[..i] + ([bs[i]] + bs[i + 1..]);
  }

  /** Removing a binding that did not win changes nothing. */
  lemma LoserIsIrrelevant(bs: seq<InjectionBinding>, context: Context, w: InjectionBinding, i: nat)
    requires Resolve(bs, context) == Ok(Some(w))
    requires i < |bs| && bs[i] != w
    ensures Resolve(bs[..i] + bs[i + 1..], context) == Ok(Some(w))
  {
    ResolvesTheWinner(bs, context, w);
    WithoutLoser(multiset(bs), context, w, bs[i]);
    RemovedAt(bs, i);
    ResolvesTheWinner(bs[..i] + bs[i + 1..], context, w);
  }

  /** Where one correction never offers two revisions, the revision tie-break decides nothing. */
  lemma TieBreakUnused(bs: seq<InjectionBinding>, context: Context)
    requires forall a, b | a in bs && b in bs && a.correctionId == b.correctionId ::
      a.correctionRevision == b.correctionRevision
    ensures Resolve(bs, context).Ok? <==> |Tied(bs, context)| <= 1
  {
    var tied := Tied(bs, context);
    if |tied| > 1 && Resolve(bs, context).Ok? {
      var w := Resolve(bs, context).value.value;
      ResolvesTheWinner(bs, context, w);
      WinnerOverTied(bs, context, w);
      forall b | b in tied ensures b == w {
        TiedCount(bs, context, b);
        TiedCount(bs, context, w);
      }
      Singleton(tied, w);
    }
  }
}
