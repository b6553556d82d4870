/** The step-sync rules of the financial signal processing (FSP) cascade
    (piker/fsp/_engine.py): the `desynced` predicate, the quote filter fed to
    an FSP routine, the builtin routine table, and the per-step row append to
    the destination buffer. */
module FspEngine {
  import opened Results

  function Abs(x: int): nat
  {
    if x < 0 then -x else x
  }

  /** `desynced(src, dst)`: the destination must be rebuilt when the buffers'
      lengths differ by more than 2, or when the source index is not 0 or 1
      steps ahead of the destination index. */
  function Desynced(srcIndex: int, dstIndex: int, srcLen: int, dstLen: int): (r: bool)
    ensures !r <==> 0 <= srcIndex - dstIndex <= 1 && -2 <= srcLen - dstLen <= 2
  {
    var diff := srcIndex - dstIndex;
    var lenDiff := Abs(srcLen - dstLen);
    lenDiff > 2 || diff > 1 || diff < 0
  }

  lemma DesyncedOnLengthGap(srcIndex: int, dstIndex: int, srcLen: int, dstLen: int)
    requires Abs(srcLen - dstLen) > 2
    ensures Desynced(srcIndex, dstIndex, srcLen, dstLen)
  {
  }

  lemma DesyncedOffStep(srcIndex: int, dstIndex: int, srcLen: int, dstLen: int)
    requires srcIndex - dstIndex > 1 || srcIndex - dstIndex < 0
    ensures Desynced(srcIndex, dstIndex, srcLen, dstLen)
  {
  }

  /** Only the index difference is directional; the length test is symmetric. */
  lemma DesyncedLengthSymmetric(srcIndex: int, dstIndex: int, srcLen: int, dstLen: int)
    ensures Desynced(srcIndex, dstIndex, srcLen, dstLen) == Desynced(srcIndex, dstIndex, dstLen, srcLen)
  {
  }

  // ---------------------------------------------------------------------
  // filter_quotes_by_sym

  /** What one batch of quotes contributes: `quotes.get(sym)` when it is
      truthy (a non-empty dict), nothing otherwise. */
  function Emitted<V>(sym: string, quotes: map<string, map<string, V>>): seq<map<string, V>>
  {
    if sym in quotes && |quotes[sym]| > 0 then [quotes[sym]] else []
  }

  /** The quotes yielded by the real-time part of `filter_quotes_by_sym`. */
  function RealtimeQuotes<V>(sym: string, batches: seq<map<string, map<string, V>>>): (r: seq<map<string, V>>)
    ensures |r| <= |batches|
    ensures forall i :: 0 <= i < |r| ==> |r[i]| > 0
    decreases |batches|
  {
    if batches == [] then []
    else Emitted(sym, batches[0]) + RealtimeQuotes(sym, batches[1..])
  }

  /** `filter_quotes_by_sym`: an empty dict first (so the history pass can run
      without waiting for a quote), then the real-time quotes for `sym`. */
  function FilterQuotesBySym<V>(sym: string, batches: seq<map<string, map<string, V>>>): (r: seq<map<string, V>>)
    ensures 1 <= |r| <= |batches| + 1
    ensures |r[0]| == 0
    ensures forall i :: 1 <= i < |r| ==> |r[i]| > 0
  {
    [map[]] + RealtimeQuotes(sym, batches)
  }

  /** The filter is a stream transformer: splitting the input splits the output. */
  lemma {:induction false} RealtimeQuotesAppend<V>(sym: string, s: seq<map<string, map<string, V>>>, t: seq<map<string, map<string, V>>>)
    ensures RealtimeQuotes(sym, s + t) == RealtimeQuotes(sym, s) + RealtimeQuotes(sym, t)
    decreases |s|
  {
    if s == [] {
      assert s + t == t;
    } else {
      assert (s + t)[0] == s[0];
      assert (s + t)[1..] == s[1..] + t;
      RealtimeQuotesAppend(sym, s[1..], t);
    }
  }

  /** A single batch yields its quote for `sym` exactly when that quote is truthy. */
  lemma RealtimeQuotesOne<V>(sym: string, quotes: map<string, map<string, V>>)
    ensures RealtimeQuotes(sym, [quotes]) == if sym in quotes && |quotes[sym]| > 0 then [quotes[sym]] else []
  {
    assert [quotes][1..] == [];
  }

  /** Batches without a truthy quote for `sym` yield nothing. */
  lemma {:induction false} RealtimeQuotesSkipsAbsent<V>(sym: string, batches: seq<map<string, map<string, V>>>)
    requires forall i :: 0 <= i < |batches| ==> sym !in batches[i] || |batches[i][sym]| == 0
    ensures RealtimeQuotes(sym, batches) == []
    decreases |batches|
  {
    if batches != [] {
      RealtimeQuotesSkipsAbsent(sym, batches[1..]);
    }
  }

  // ---------------------------------------------------------------------
  // _fsp_builtins and the lookup in cascade

  datatype FspFunc = Rsi | Wma | Vwap

  /** `_fsp_builtins`: three names, each bound to a different routine. */
  function Builtins(): (r: map<string, FspFunc>)
    ensures r.Keys == {"rsi", "wma", "vwap"}
    ensures forall a, b :: a in r && b in r && r[a] == r[b] ==> a == b
  {
    map["rsi" := Rsi, "wma" := Wma, "vwap" := Vwap]
  }

  datatype FspError = ValueError(msg: string)

  /** The message as the source spells it: the string lacks the `f` prefix,
      so the placeholder is not substituted. */
  const UnknownTargetLiteral: string := "Unknown fsp target: {func_name}"

  const UnknownTargetPrefix: string := "Unknown fsp target: "

  /** The lookup as written: every unknown name raises the same literal message. */
  function LookupFspAsWritten(funcName: string): (r: Result<FspFunc, FspError>)
    ensures r.Ok? <==> funcName in {"rsi", "wma", "vwap"}
    ensures r.Ok? ==> r.value == Builtins()[funcName]
    ensures r.Err? ==> r.error == ValueError(UnknownTargetLiteral)
  {
    if funcName in Builtins() then Ok(Builtins()[funcName])
    else Err(ValueError(UnknownTargetLiteral))
  }

  /** Two different unknown names give indistinguishable errors. */
  lemma UnknownTargetLiteralHidesName()
    ensures LookupFspAsWritten("ema").Err?
    ensures LookupFspAsWritten("ema") == LookupFspAsWritten("macd")
  {
  }

  /** The lookup with the evidently intended message, naming the target. */
  function LookupFsp(funcName: string): (r: Result<FspFunc, FspError>)
    ensures r.Ok? <==> funcName in {"rsi", "wma", "vwap"}
    ensures r.Ok? ==> r.value == Builtins()[funcName]
    ensures r.Err? ==>
      && |r.error.msg| >= |UnknownTargetPrefix|
      && r.error.msg[..|UnknownTargetPrefix|] == UnknownTargetPrefix
      && r.error.msg[|UnknownTargetPrefix|..] == funcName
  {
    if funcName in Builtins() then Ok(Builtins()[funcName])
    else Err(ValueError(UnknownTargetPrefix + funcName))
  }

  /** With the corrected message, the error identifies the unknown target. */
  lemma UnknownTargetNamesTarget(a: string, b: string)
    requires LookupFsp(a).Err? && LookupFsp(b).Err?
    ensures LookupFsp(a) == LookupFsp(b) <==> a == b
  {
    if LookupFsp(a) == LookupFsp(b) {
      assert a == LookupFsp(a).error.msg[|UnknownTargetPrefix|..];
    }
  }

  // ---------------------------------------------------------------------
  // The destination buffer and the per-step append in cascade

  /** A structured row of the shared array, one value per field. */
  type Row = seq<real>

  predicate IsZeroRow(row: Row)
  {
    forall i :: 0 <= i < |row| ==> row[i] == 0.0
  }

  /** The part of a shared-memory array this model uses: the rows currently
      visible as `array` and the position of the first of them. */
  class ShmArray {
    var first: int
    var rows: seq<Row>

    /** `index`: the position just past the last row. */
    function Index(): int
      reads this
    {
      first + |rows|
    }

    /** `push(data)`: append rows at the end. */
    method Push(data: seq<Row>)
      modifies this
      ensures first == old(first)
      ensures rows == old(rows) + data
    {
      rows := rows + data;
    }
  }

  /** `array[-1:]`: the last row, or no row when the array is empty. */
  function LastRows(rows: seq<Row>): (r: seq<Row>)
    ensures |r| <= 1
    ensures |r| == 1 <==> rows != []
    ensures r != [] ==> r[0] == rows[|rows| - 1]
  {
    if rows == [] then [] else [rows[|rows| - 1]]
  }

  /** `np.zeros(a.shape, dtype=a.dtype)`: same shape, every field zero. */
  function ZerosLike(a: seq<Row>): (r: seq<Row>)
    ensures |r| == |a|
    ensures forall i :: 0 <= i < |r| ==> |r[i]| == |a[i]| && IsZeroRow(r[i])
  {
    seq(|a|, i requires 0 <= i < |a| => seq(|a[i]|, _ => 0.0))
  }

  /** One step of the cascade loop: push either the zeroed row computed at
      start-up or a copy of the current last row. */
  method AppendStep(dst: ShmArray, zeroOnStep: bool, zeroed: seq<Row>)
    modifies dst
    ensures dst.first == old(dst.first)
    ensures zeroOnStep ==> dst.rows == old(dst.rows) + zeroed
    ensures !zeroOnStep ==> dst.rows == old(dst.rows) + LastRows(old(dst.rows))
    ensures !zeroOnStep && old(dst.rows) != [] ==>
      && |dst.rows| == |old(dst.rows)| + 1
      && dst.rows[..|old(dst.rows)|] == old(dst.rows)
      && dst.rows[|dst.rows| - 1] == old(dst.rows)[|old(dst.rows)| - 1]
  {
    var current := dst.rows;
    var last := if zeroOnStep then zeroed else LastRows(current);
    dst.Push(last);
  }

  /** The source buffer's `index` and length when an increment message arrives. */
  datatype SrcSample = SrcSample(index: int, len: nat)

  datatype CascadeEnd =
    | Failed(error: FspError)   // the routine name was not a builtin
    | StreamEnded               // every increment message was handled
    | ResyncAt(step: nat)       // the buffers were out of step at this message

  /** How many increment messages appended a row before the cascade ended. */
  function StepsTaken(r: CascadeEnd, total: nat): nat
  {
    match r
    case Failed(_) => 0
    case StreamEnded => total
    case ResyncAt(i) => i
  }

  /** The expected length of `dst` after `j` appended steps, starting from `n0`
      rows: a slice of an empty array is empty, so nothing is ever appended
      to an empty buffer. */
  function GrownLength(n0: nat, j: nat): nat
  {
    if n0 == 0 then 0 else n0 + j
  }

  /** A row appended by a step: all-zero of the start-up row's width, or a
      copy of the start-up last row. */
  predicate SteppedRow(row: Row, last: Row, zeroOnStep: bool)
  {
    if zeroOnStep then |row| == |last| && IsZeroRow(row) else row == last
  }

  /** `cascade` after the compute task has pushed its history: resolve the
      routine, compute the zeroed row once, then for each increment message
      check step sync and append one row. The loop stops at the first
      message that finds the buffers out of step. */
  method Cascade(dst: ShmArray, funcName: string, zeroOnStep: bool, samples: seq<SrcSample>)
    returns (r: CascadeEnd)
    modifies dst
    ensures dst.first == old(dst.first)
    ensures LookupFsp(funcName).Err? ==> r == Failed(LookupFsp(funcName).error) && dst.rows == old(dst.rows)
    ensures LookupFsp(funcName).Ok? ==> r.StreamEnded? || (r.ResyncAt? && r.step < |samples|)
    ensures |dst.rows| == GrownLength(|old(dst.rows)|, StepsTaken(r, |samples|))
    ensures old(dst.rows) != [] ==>
      && dst.rows[..|old(dst.rows)|] == old(dst.rows)
      && forall j :: |old(dst.rows)| <= j < |dst.rows| ==>
           SteppedRow(dst.rows[j], old(dst.rows)[|old(dst.rows)| - 1], zeroOnStep)
    ensures forall j :: 0 <= j < StepsTaken(r, |samples|) ==>
      !Desynced(samples[j].index, old(dst.first) + GrownLength(|old(dst.rows)|, j),
                samples[j].len, GrownLength(|old(dst.rows)|, j))
    ensures r.ResyncAt? ==> Desynced(samples[r.step].index, dst.Index(), samples[r.step].len, |dst.rows|)
  {
    var lookup := LookupFsp(funcName);
    if lookup.Err? {
      return Failed(lookup.error);
    }
    var zeroed := ZerosLike(LastRows(dst.rows));
    ghost var start := dst.rows;
    var i := 0;
    while i < |samples|
      invariant 0 <= i <= |samples|
      invariant dst.first == old(dst.first)
      invariant |dst.rows| == GrownLength(|start|, i)
      invariant start != [] ==> dst.rows[..|start|] == start
      invariant start != [] ==> forall j :: |start| <= j < |dst.rows| ==>
        SteppedRow(dst.rows[j], start[|start| - 1], zeroOnStep)
      invariant start != [] && !zeroOnStep ==> dst.rows[|dst.rows| - 1] == start[|start| - 1]
      invariant forall j :: 0 <= j < i ==>
        !Desynced(samples[j].index, old(dst.first) + GrownLength(|start|, j),
                  samples[j].len, GrownLength(|start|, j))
    {
      var sample := samples[i];
      if Desynced(sample.index, dst.Index(), sample.len, |dst.rows|) {
        return ResyncAt(i);
      }
      AppendStep(dst, zeroOnStep, zeroed);
      i := i + 1;
    }
    r := StreamEnded;
  }
}
