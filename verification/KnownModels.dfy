/** Suggestions for a mistyped model name: the longest common substring by dynamic programming. */
module KnownModels {
  import opened Common

  /** The longest common suffix of a[..i] and b[..j]: what one table cell holds. */
  function Suffix(a: string, b: string, i: nat, j: nat): nat
    requires i <= |a| && j <= |b|
  {
    if i == 0 || j == 0 || a[i - 1] != b[j - 1] then 0 else Suffix(a, b, i - 1, j - 1) + 1
  }

  function RowBest(a: string, b: string, i: nat, j: nat): nat
    requires i <= |a| && j <= |b|
  {
    if j == 0 then 0 else MaxInt(RowBest(a, b, i, j - 1), Suffix(a, b, i, j))
  }

  function Best(a: string, b: string, i: nat): nat
    requires i <= |a|
  {
    if i == 0 then 0 else MaxInt(Best(a, b, i - 1), RowBest(a, b, i, |b|))
  }

  function LongestCommon(a: string, b: string): nat {
    Best(a, b, |a|)
  }

  /** The first `width` cells of a row hold what they stand for. */
  ghost predicate RowHolds(table: array2<nat>, a: string, b: string, row: nat, width: nat)
    requires table.Length0 == |a| + 1 && table.Length1 == |b| + 1
    requires row <= |a| && width <= |b| + 1
    reads table
  {
    forall y | 0 <= y < width :: table[row, y] == Suffix(a, b, row, y)
  }

  /** `_lcs_len`. */
  method LcsLen(a: string, b: string) returns (best: nat)
    ensures best == LongestCommon(a, b)
  {
    if a == "" || b == "" {
      NothingInCommon(a, b);
      return 0;
    }
    hide Suffix;
    best := 0;
    var table := new nat[|a| + 1, |b| + 1]((_, _) => 0);
    for i := 1 to |a| + 1
      invariant best == Best(a, b, i - 1)
      invariant RowHolds(table, a, b, i - 1, |b| + 1)
      invariant forall x, y | i <= x <= |a| && 0 <= y <= |b| :: table[x, y] == 0
    {
      for j := 1 to |b| + 1
        invariant best == MaxInt(Best(a, b, i - 1), RowBest(a, b, i, j - 1))
        invariant RowHolds(table, a, b, i - 1, |b| + 1) && RowHolds(table, a, b, i, j)
        invariant forall x, y | i <= x <= |a| && 0 <= y <= |b| && (x > i || y >= j) :: table[x, y] == 0
      {
        if a[i - 1] == b[j - 1] {
          table[i, j] := table[i - 1, j - 1] + 1;
          if table[i, j] > best {
            best := table[i, j];
          }
        }
      }
    }
  }

  lemma NothingInCommon(a: string, b: string)
    requires a == "" || b == ""
    ensures LongestCommon(a, b) == 0
  {
    if b == "" {
      BestOfNothing(a, |a|);
    }
  }

  lemma {:induction false} BestOfNothing(a: string, i: nat)
    requires i <= |a|
    ensures Best(a, "", i) == 0
  {
    if i > 0 {
      BestOfNothing(a, i - 1);
    }
  }

  // ---------- what the table's maximum is ----------

  /** `n` characters in common, at positions `i` and `j`. */
  predicate CommonAt(a: string, b: string, i: nat, j: nat, n: nat) {
    i + n <= |a| && j + n <= |b| && a[i..i + n] == b[j..j + n]
  }

  lemma {:induction false} SuffixIsCommon(a: string, b: string, i: nat, j: nat)
    requires i <= |a| && j <= |b|
    ensures var n := Suffix(a, b, i, j); n <= i && n <= j && CommonAt(a, b, i - n, j - n, n)
    decreases i
  {
    if i > 0 && j > 0 && a[i - 1] == b[j - 1] {
      SuffixIsCommon(a, b, i - 1, j - 1);
      var n := Suffix(a, b, i, j);
      assert a[i - n..i] == a[i - n..i - 1] + [a[i - 1]];
      assert b[j - n..j] == b[j - n..j - 1] + [b[j - 1]];
    }
  }

  lemma {:induction false} SuffixIsLongest(a: string, b: string, i: nat, j: nat, n: nat)
    requires CommonAt(a, b, i, j, n)
    ensures n <= Suffix(a, b, i + n, j + n)
    decreases n
  {
    if n > 0 {
      assert a[i..i + n][n - 1] == a[i + n - 1] && b[j..j + n][n - 1] == b[j + n - 1];
      assert a[i..i + n - 1] == a[i..i + n][..n - 1] && b[j..j + n - 1] == b[j..j + n][..n - 1];
      SuffixIsLongest(a, b, i, j, n - 1);
    }
  }

  lemma {:induction false} RowBestIsMax(a: string, b: string, i: nat, j: nat)
    requires i <= |a| && j <= |b|
    ensures forall y | 0 <= y <= j :: y == 0 || Suffix(a, b, i, y) <= RowBest(a, b, i, j)
    ensures RowBest(a, b, i, j) > 0 ==> exists y :: 0 <= y <= j && Suffix(a, b, i, y) == RowBest(a, b, i, j)
    decreases j
  {
    if j > 0 {
      RowBestIsMax(a, b, i, j - 1);
    }
  }

  lemma {:induction false} BestIsMax(a: string, b: string, i: nat)
    requires i <= |a|
    ensures forall x, y | 0 < x <= i && 0 < y <= |b| :: Suffix(a, b, x, y) <= Best(a, b, i)
    ensures Best(a, b, i) > 0 ==>
      exists x, y :: 0 <= x <= i && 0 <= y <= |b| && Suffix(a, b, x, y) == Best(a, b, i)
    decreases i
  {
    if i > 0 {
      BestIsMax(a, b, i - 1);
      RowBestIsMax(a, b, i, |b|);
    }
  }

  /** The result is exact: some common substring has that length, and none is longer. */
  lemma LongestCommonIsExact(a: string, b: string)
    ensures exists i: nat, j: nat :: CommonAt(a, b, i, j, LongestCommon(a, b))
    ensures forall i: nat, j: nat, n: nat | CommonAt(a, b, i, j, n) :: n <= LongestCommon(a, b)
  {
    BestIsMax(a, b, |a|);
    var best := LongestCommon(a, b);
    if best == 0 {
      assert CommonAt(a, b, 0, 0, 0);
    } else {
      var x, y :| 0 <= x <= |a| && 0 <= y <= |b| && Suffix(a, b, x, y) == best;
      SuffixIsCommon(a, b, x, y);
    }
    forall i: nat, j: nat, n: nat | CommonAt(a, b, i, j, n) ensures n <= best {
      SuffixIsLongest(a, b, i, j, n);
    }
  }

  // ---------- suggest_similar ----------

  datatype Scored = Scored(score: nat, id: string)

  /** Tuples compare by score, then by id. */
  predicate Below(x: Scored, y: Scored) {
    x.score < y.score || (x.score == y.score && StringLess(x.id, y.id))
  }

  lemma {:induction false} StringLessIrreflexive(a: string)
    ensures !StringLess(a, a)
    decreases |a|
  {
    if a != "" { StringLessIrreflexive(a[1..]); }
  }

  lemma {:induction false} StringLessTransitive(a: string, b: string, c: string)
    requires StringLess(a, b) && StringLess(b, c)
    ensures StringLess(a, c)
    decreases |a|
  {
    if a != "" && a[0] == b[0] && b[0] == c[0] {
      StringLessTransitive(a[1..], b[1..], c[1..]);
    }
  }

  lemma BelowOrders(x: Scored, y: Scored, z: Scored)
    ensures !Below(x, x)
    ensures Below(x, y) && Below(y, z) ==> Below(x, z)
  {
    StringLessIrreflexive(x.id);
    if StringLess(x.id, y.id) && StringLess(y.id, z.id) {
      StringLessTransitive(x.id, y.id, z.id);
    }
  }

  function Insert(xs: seq<Scored>, x: Scored): seq<Scored> {
    if xs == [] || Below(xs[0], x) then [x] + xs else [xs[0]] + Insert(xs[1..], x)
  }

  /** Descending: no entry is below a later one. */
  ghost predicate Sorted(xs: seq<Scored>) {
    forall i, j | 0 <= i < j < |xs| :: !Below(xs[i], xs[j])
  }

  lemma {:induction false} InsertSorts(xs: seq<Scored>, x: Scored)
    requires Sorted(xs)
    ensures Sorted(Insert(xs, x)) && |Insert(xs, x)| == |xs| + 1
    ensures forall y :: y in Insert(xs, x) <==> y in xs || y == x
    decreases |xs|
  {
    hide Below;
    if xs == [] {
    } else if Below(xs[0], x) {
      forall z | z in xs ensures !Below(x, z) {
        BelowOrders(xs[0], x, z);
        BelowOrders(xs[0], x, xs[0]);
        var i :| 0 <= i < |xs| && xs[i] == z;
      }
    } else {
      InsertSorts(xs[1..], x);
      assert xs == [xs[0]] + xs[1..];
      var rest := Insert(xs[1..], x);
      assert forall i | 0 <= i < |rest| :: rest[i] in rest;
    }
  }

  const MIN_SCORE := 4

  /** A model with its similarity to the name. */
  ghost function ScoredAs(id: string, lowered: string, lower: string -> string): Scored {
    Scored(LongestCommon(lowered, lower(id)), id)
  }

  /** The scored list, before it is cut. */
  ghost predicate ScoresAll(scored: seq<Scored>, models: seq<string>, lowered: string, lower: string -> string) {
    && Sorted(scored)
    && (forall x | x in scored :: x.id in models && x == ScoredAs(x.id, lowered, lower))
    && (forall id | id in models :: ScoredAs(id, lowered, lower) in scored)
  }

  method ScoreModels(models: seq<string>, lowered: string, lower: string -> string) returns (scored: seq<Scored>)
    ensures ScoresAll(scored, models, lowered, lower)
  {
    hide LongestCommon, Insert, Sorted;
    scored := [];
    assert Sorted(scored) by { NothingSorted(); }
    for k := 0 to |models|
      invariant ScoresAll(scored, models[..k], lowered, lower)
    {
      var score := LcsLen(lowered, lower(models[k]));
      InsertSorts(scored, Scored(score, models[k]));
      scored := Insert(scored, Scored(score, models[k]));
      assert models[..k + 1] == models[..k] + [models[k]];
    }
    assert models[..|models|] == models;
  }

  lemma NothingSorted()
    ensures Sorted([])
  {
  }

  lemma SortedByScore(xs: seq<Scored>)
    requires Sorted(xs)
    ensures forall i, j | 0 <= i < j < |xs| :: xs[i].score >= xs[j].score
  {
    hide StringLess;
  }

  /** The ids of the first `maxResults` entries that score enough. */
  method Pick(scored: seq<Scored>, maxResults: nat) returns (r: seq<string>)
    requires Sorted(scored)
    ensures |r| <= |scored| && |r| <= maxResults
    ensures forall i | 0 <= i < |r| :: r[i] == scored[i].id && scored[i].score >= MIN_SCORE
    ensures forall i | |r| <= i < |scored| && scored[i].score >= MIN_SCORE :: |r| == maxResults
  {
    SortedByScore(scored);
    hide Sorted;
    var cut := if |scored| <= maxResults then |scored| else maxResults;
    r := [];
    for n := 0 to cut
      invariant |r| <= n
      invariant forall i | 0 <= i < |r| :: r[i] == scored[i].id && scored[i].score >= MIN_SCORE
      invariant forall i | |r| <= i < n :: scored[i].score < MIN_SCORE
      invariant |r| < n ==> scored[n - 1].score < MIN_SCORE
    {
      if scored[n].score >= MIN_SCORE {
        r := r + [scored[n].id];
      }
    }
  }

  /** `suggest_similar`: the best `maxResults` models that share at least four characters in a row with
      the name, by similarity and, among equals, by id, both descending. A model is left out only if it
      shares less, or if the list is full of models that are not below it. */
  method SuggestSimilar(models: seq<string>, modelId: string, maxResults: nat, lower: string -> string)
    returns (r: seq<string>)
    ensures |r| <= maxResults
    ensures forall id | id in r :: id in models && LongestCommon(lower(modelId), lower(id)) >= 4
    ensures forall i, j | 0 <= i < j < |r| ::
      !Below(ScoredAs(r[i], lower(modelId), lower), ScoredAs(r[j], lower(modelId), lower))
    ensures forall id | id in models && id !in r && LongestCommon(lower(modelId), lower(id)) >= 4 ::
      |r| == maxResults && forall i | 0 <= i < |r| ::
        !Below(ScoredAs(r[i], lower(modelId), lower), ScoredAs(id, lower(modelId), lower))
  {
    hide LongestCommon, Below;
    var lowered := lower(modelId);
    var scored := ScoreModels(models, lowered, lower);
    r := Pick(scored, maxResults);
    forall i | 0 <= i < |r|
      ensures scored[i].id in r && ScoredAs(r[i], lowered, lower) == scored[i]
    {
      assert scored[i] in scored && r[i] in r;
    }
    forall id | id in models && id !in r && LongestCommon(lowered, lower(id)) >= MIN_SCORE
      ensures |r| == maxResults && forall i | 0 <= i < |r| ::
        !Below(ScoredAs(r[i], lowered, lower), ScoredAs(id, lowered, lower))
    {
      var at :| 0 <= at < |scored| && scored[at] == ScoredAs(id, lowered, lower);
    }
  }
}
