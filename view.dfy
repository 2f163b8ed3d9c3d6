/**
 * View state of the ledger table: which five records the current page shows,
 * how many pages there are, and which rows are expanded.
 */
module View {

  /** `registrosPorPagina`. */
  const RegistrosPorPagina: nat := 5

  function Min(a: int, b: int): int { if a < b then a else b }

  function Max(a: int, b: int): int { if a < b then b else a }

  /**
   * `numeroPaginas = Math.ceil(registros.length / registrosPorPagina)`: the
   * fewest pages of five that hold `n` records. An empty ledger has 0 pages.
   */
  function PageCount(n: nat): (c: nat)
    ensures c * RegistrosPorPagina >= n
    ensures c > 0 ==> (c - 1) * RegistrosPorPagina < n
  {
    (n + RegistrosPorPagina - 1) / RegistrosPorPagina
  }

  /**
   * Where `Array.prototype.slice` places the bound `x` in a list of `len`
   * elements: a negative bound counts back from the end, and the result is
   * clamped to `[0, len]`.
   */
  function SliceBound(len: nat, x: int): (b: nat)
    ensures b <= len
    ensures 0 <= x ==> b == Min(x, len)
    ensures -(len as int) <= x < 0 ==> b == len + x
    ensures x < -(len as int) ==> b == 0
  {
    if x < 0 then (if len + x < 0 then 0 else len + x)
    else if x < len then x else len
  }

  /**
   * `s.slice(start, end)`: a contiguous part of `s`, empty when the placed end
   * is not past the placed start. With non-negative bounds it is `s[start..end]`
   * clamped to `s`; with negative bounds both count back from the end of `s`.
   */
  function JsSlice<T>(s: seq<T>, start: int, end: int): (r: seq<T>)
    ensures |r| <= |s|
    ensures 0 <= start <= end ==> r == s[Min(start, |s|)..Min(end, |s|)]
    ensures -|s| <= start <= end < 0 ==> r == s[|s| + start..|s| + end]
    ensures end <= start && (0 <= end || start < 0) ==> r == []
    ensures SliceBound(|s|, end) <= SliceBound(|s|, start) ==> r == []
    ensures SliceBound(|s|, start) < SliceBound(|s|, end) ==>
      r == s[SliceBound(|s|, start)..SliceBound(|s|, end)]
  {
    var from, to := SliceBound(|s|, start), SliceBound(|s|, end);
    if from < to then s[from..to] else []
  }

  /**
   * `registrosAtuais`: the slice from `indexPrimeiroRegistro = p * 5 - 5` to
   * `indexUltimoRegistro = p * 5`. From page 1 on it is the records
   * `[(p - 1) * 5, p * 5)` clamped to the ledger, and never more than five;
   * every page up to the page count shows at least one record. Page 0, which
   * the Next button can reach on an empty ledger, shows nothing.
   */
  function PageSlice<T>(regs: seq<T>, p: int): (r: seq<T>)
    ensures |r| <= RegistrosPorPagina
    ensures p >= 1 ==>
      r == regs[Min((p - 1) * RegistrosPorPagina, |regs|)..Min(p * RegistrosPorPagina, |regs|)]
    ensures p == 0 ==> r == []
    ensures 1 <= p <= PageCount(|regs|) ==> r != []
  {
    var ultimo := p * RegistrosPorPagina;
    var primeiro := ultimo - RegistrosPorPagina;
    JsSlice(regs, primeiro, ultimo)
  }

  /** The pages from `p` to the page count, laid end to end. */
  function PagesFrom<T>(regs: seq<T>, p: nat): seq<T>
    requires p >= 1
    decreases PageCount(|regs|) + 1 - p
  {
    if p > PageCount(|regs|) then [] else PageSlice(regs, p) + PagesFrom(regs, p + 1)
  }

  lemma {:induction false} PagesFromSuffix<T>(regs: seq<T>, p: nat)
    requires 1 <= p <= PageCount(|regs|) + 1
    ensures PagesFrom(regs, p) == regs[Min((p - 1) * RegistrosPorPagina, |regs|)..]
    decreases PageCount(|regs|) + 1 - p
  {
    var a := Min((p - 1) * RegistrosPorPagina, |regs|);
    if p <= PageCount(|regs|) {
      var b := Min(p * RegistrosPorPagina, |regs|);
      PagesFromSuffix(regs, p + 1);
      assert regs[a..b] + regs[b..] == regs[a..];
    } else {
      assert a == |regs|;
    }
  }

  /** Paging through pages 1 .. numeroPaginas shows every record once, in ledger order. */
  lemma PagesCoverLedger<T>(regs: seq<T>)
    ensures PagesFrom(regs, 1) == regs
  {
    PagesFromSuffix(regs, 1);
  }

  /**
   * Seven records make two pages: records 1-5, then 6-7. Pages outside the
   * count are not clamped by the slice: page 0 and page 100 show nothing.
   */
  lemma SevenRecordsExample<T>(regs: seq<T>)
    requires |regs| == 7
    ensures PageCount(|regs|) == 2
    ensures PageSlice(regs, 1) == regs[..5] && PageSlice(regs, 2) == regs[5..]
    ensures PageSlice(regs, 0) == [] && PageSlice(regs, 100) == []
  {
  }

  /**
   * The `setExpandidos` updater of `toggleExpand`: `index` changes membership,
   * every other index keeps it.
   */
  function Toggle(s: set<int>, index: int): (r: set<int>)
    ensures index in r <==> index !in s
    ensures forall j :: j != index ==> (j in r <==> j in s)
  {
    if index in s then s - {index} else s + {index}
  }

  /** Toggling the same row twice restores the set of expanded rows. */
  lemma ToggleTwice(s: set<int>, index: int)
    ensures Toggle(Toggle(s, index), index) == s
  {
  }
}
