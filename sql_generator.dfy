/**
 * The SQL-script step of the historical import: the validated records are cut into
 * batches of 500, and each batch becomes a commented, transaction-wrapped INSERT whose
 * VALUES rows quote the names and teams with every single quote doubled. The fixed
 * text of the comments, the PRAGMA, the backup and the verification queries is
 * abstracted to named components; the VALUES rows are modelled character by character.
 * Reading the template file and writing the script and the batch summary are left out.
 */
module SqlGenerator {
  import opened Wrappers
  import opened Text
  import opened Sorting
  import opened ImportTemplate

  /** Records per transaction batch. */
  const BatchSize: nat := 500

  /** One `sqlComponents` entry. */
  datatype Component =
    | FileHeader(records: nat, users: nat, generatedAt: string)
    | ForeignKeysComment
    | ForeignKeysPragma
    | BackupStatements
    | BatchHeader(info: BatchInfo)
    | Begin
    | InsertHead
    | ValuesRows(rows: seq<string>)
    | Gap
    | BatchCheck(batchNumber: nat)
    | Commit
    | FinalSummary(records: nat)

  /** One entry of `batches`; `endIndex` is the last index the batch includes. */
  datatype BatchInfo = BatchInfo(
    batchNumber: nat, totalBatches: nat, recordCount: nat, startIndex: nat, endIndex: int,
    users: seq<string>, rounds: seq<int>)

  function Min(a: int, b: int): int
  {
    if a <= b then a else b
  }

  /** `Math.ceil(n / BATCH_SIZE)`. */
  function TotalBatches(n: nat): nat
  {
    (n + 500 - 1) / 500
  }

  /** The batch count is the ceiling of n / 500: 0 exactly for no records, else just enough. */
  lemma {:induction false} TotalBatchesMeaning(n: nat)
    ensures TotalBatches(n) == 0 <==> n == 0
    ensures n <= TotalBatches(n) * 500
    ensures n > 0 ==> (TotalBatches(n) - 1) * 500 < n
  {
    var t := TotalBatches(n);
    assert n + 499 == t * 500 + (n + 499) % 500;
  }

  /** One past the last index of batch `i`. */
  function BatchEnd(n: nat, i: nat): nat
  {
    Min(i * 500 + 500, n)
  }

  /** `importData.slice(startIndex, endIndex)` for batch `i`. */
  function BatchData(records: seq<ImportRecord>, i: nat): seq<ImportRecord>
    requires i < TotalBatches(|records|)
  {
    records[Min(i * 500, |records|)..BatchEnd(|records|, i)]
  }

  function UserNamesOf(data: seq<ImportRecord>): seq<string>
  {
    seq(|data|, j requires 0 <= j < |data| => data[j].userName)
  }

  function RoundsOf(data: seq<ImportRecord>): set<int>
  {
    set r | r in data :: r.roundNumber
  }

  /** The `batchInfo` of batch `i`. */
  function InfoOf(records: seq<ImportRecord>, i: nat): BatchInfo
    requires i < TotalBatches(|records|)
  {
    var data := BatchData(records, i);
    BatchInfo(i + 1, TotalBatches(|records|), |data|, i * 500, BatchEnd(|records|, i) - 1,
              Dedupe(UserNamesOf(data)), SortedInts(RoundsOf(data)))
  }

  /**
   * Batch `i` starts at 500 * i, holds 1 to 500 records and ends at its last index; its
   * rounds are its distinct round numbers ascending and its users its distinct names.
   */
  lemma {:induction false} BatchInfoMeaning(records: seq<ImportRecord>, i: nat)
    requires i < TotalBatches(|records|)
    ensures var info := InfoOf(records, i);
            info.startIndex == i * 500 && 1 <= info.recordCount <= BatchSize
            && info.endIndex == info.startIndex + info.recordCount - 1
            && info.endIndex < |records| && info.batchNumber == i + 1
    ensures var info := InfoOf(records, i);
            StrictlyIncreasing(info.rounds)
            && forall x :: x in info.rounds <==> exists r :: r in BatchData(records, i) && r.roundNumber == x
    ensures var info := InfoOf(records, i);
            forall x :: x in info.users <==> exists r :: r in BatchData(records, i) && r.userName == x
  {
    TotalBatchesMeaning(|records|);
    var data := BatchData(records, i);
    var names := UserNamesOf(data);
    forall x ensures x in Dedupe(names) <==> exists r :: r in data && r.userName == x {
      if x in Dedupe(names) {
        var j :| 0 <= j < |names| && names[j] == x;
        assert data[j] in data;
      }
      if exists r :: r in data && r.userName == x {
        var r :| r in data && r.userName == x;
        var j :| 0 <= j < |data| && data[j] == r;
        assert names[j] == x;
      }
    }
  }

  /** The records of the first `k` batches, one batch after another. */
  function DataUpTo(records: seq<ImportRecord>, k: nat): seq<ImportRecord>
    requires k <= TotalBatches(|records|)
  {
    if k == 0 then [] else DataUpTo(records, k - 1) + BatchData(records, k - 1)
  }

  /** The first `k` batches are exactly the records before index min(500 * k, n). */
  lemma {:induction false} DataUpToPrefix(records: seq<ImportRecord>, k: nat)
    requires k <= TotalBatches(|records|)
    ensures DataUpTo(records, k) == records[..Min(k * 500, |records|)]
  {
    if k > 0 {
      TotalBatchesMeaning(|records|);
      DataUpToPrefix(records, k - 1);
      var a := (k - 1) * 500;
      var b := Min(k * 500, |records|);
      assert a < |records| && Min(a, |records|) == a && BatchEnd(|records|, k - 1) == b;
      assert records[..a] + records[a..b] == records[..b];
    }
  }

  /** The batches cover every record exactly once, in order. */
  lemma {:induction false} BatchesCoverAll(records: seq<ImportRecord>)
    ensures DataUpTo(records, TotalBatches(|records|)) == records
  {
    TotalBatchesMeaning(|records|);
    DataUpToPrefix(records, TotalBatches(|records|));
    assert records[..|records|] == records;
  }

  /** `record.is_correct` as `values.join` renders it: a NaN was saved as JSON null, which joins as "". */
  function CorrectText(c: Option<int>): string
  {
    match c
    case Some(v) => IntToString(v)
    case None => ""
  }

  /** `s.replace(/'/g, "''")`. */
  function Escape(s: string): (r: string)
    ensures |r| >= |s|
    decreases |s|
  {
    if s == [] then []
    else (if s[0] == '\'' then "''" else [s[0]]) + Escape(s[1..])
  }

  /** A single-quoted SQL literal. */
  function Quote(s: string): string
  {
    "'" + Escape(s) + "'"
  }

  /**
   * How SQL reads the body of a quoted literal: up to the first lone quote, a doubled
   * quote standing for one. The text and what follows the closing quote, or `None`
   * when no quote closes it.
   */
  function ReadQuoted(t: string): (r: Option<(string, string)>)
    decreases |t|
  {
    if t == [] then None
    else if t[0] == '\'' then
      if |t| >= 2 && t[1] == '\'' then
        match ReadQuoted(t[2..])
        case None => None
        case Some(p) => Some(("'" + p.0, p.1))
      else Some(("", t[1..]))
    else
      match ReadQuoted(t[1..])
      case None => None
      case Some(p) => Some(([t[0]] + p.0, p.1))
  }

  /** Un-doubling the escaped text gives back the original, and the literal ends where it was closed. */
  lemma {:induction false} ReadEscaped(s: string, rest: string)
    requires rest == [] || rest[0] != '\''
    ensures ReadQuoted(Escape(s) + "'" + rest) == Some((s, rest))
    decreases |s|
  {
    if s == [] {
      assert Escape(s) + "'" + rest == "'" + rest;
    } else {
      ReadEscaped(s[1..], rest);
      if s[0] == '\'' {
        ReadDoubledQuote(s, rest);
      } else {
        ReadPlainChar(s, rest);
      }
    }
  }

  lemma ReadDoubledQuote(s: string, rest: string)
    requires s != [] && s[0] == '\''
    requires ReadQuoted(Escape(s[1..]) + "'" + rest) == Some((s[1..], rest))
    ensures ReadQuoted(Escape(s) + "'" + rest) == Some((s, rest))
  {
    var tail := Escape(s[1..]) + "'" + rest;
    assert Escape(s) + "'" + rest == "''" + tail;
    assert ("''" + tail)[2..] == tail;
    assert [s[0]] + s[1..] == s;
  }

  lemma ReadPlainChar(s: string, rest: string)
    requires s != [] && s[0] != '\''
    requires ReadQuoted(Escape(s[1..]) + "'" + rest) == Some((s[1..], rest))
    ensures ReadQuoted(Escape(s) + "'" + rest) == Some((s, rest))
  {
    var tail := Escape(s[1..]) + "'" + rest;
    assert Escape(s) + "'" + rest == [s[0]] + tail;
    assert ([s[0]] + tail)[1..] == tail;
    assert [s[0]] + s[1..] == s;
  }

  /** The eight `values` of a record's row. */
  function RowValues(r: ImportRecord): seq<string>
  {
    [Quote(r.userName), IntToString(r.roundNumber), IntToString(r.gameNumber), "'" + r.gameKey + "'",
     Quote(r.selectedTeam), CorrectText(r.isCorrect), IntToString(r.year), "CURRENT_TIMESTAMP"]
  }

  /** One VALUES clause: the joined values in parentheses, then ';' for the batch's last row, else ','. */
  function ValuesRow(r: ImportRecord, isLast: bool): string
  {
    "    (" + Join(RowValues(r), ", ") + ")" + (if isLast then ";" else ",")
  }

  /** `batchData.map(...)`: the rows of a batch. */
  function RowsOf(data: seq<ImportRecord>): seq<string>
  {
    seq(|data|, j requires 0 <= j < |data| => ValuesRow(data[j], j == |data| - 1))
  }

  /** Every row ends with ',' except the batch's last, which ends with ';'. */
  lemma {:induction false} RowEnding(data: seq<ImportRecord>, j: nat)
    requires j < |data|
    ensures |RowsOf(data)| == |data|
    ensures var row := RowsOf(data)[j];
            |row| > 0 && (row[|row| - 1] == ';' <==> j == |data| - 1)
            && (row[|row| - 1] == ',' <==> j < |data| - 1)
  {
    var row := RowsOf(data)[j];
    var body := "    (" + Join(RowValues(data[j]), ", ") + ")";
    assert row == body + (if j == |data| - 1 then ";" else ",");
  }

  /** The user name reads back, out of the row's first literal, as the record's own name. */
  lemma {:induction false} RowNameReadsBack(r: ImportRecord, isLast: bool)
    ensures var row := ValuesRow(r, isLast);
            |row| > 6 && row[..6] == "    ('" && ReadQuoted(row[6..]).Some?
            && ReadQuoted(row[6..]).value.0 == r.userName
  {
    var vs := RowValues(r);
    var more := ", " + Join(vs[1..], ", ") + ")" + (if isLast then ";" else ",");
    assert Join(vs, ", ") == vs[0] + ", " + Join(vs[1..], ", ");
    var row := ValuesRow(r, isLast);
    Regroup("    (", "'", Escape(r.userName), "'", ", ", Join(vs[1..], ", "), ")", if isLast then ";" else ",");
    assert "    (" + "'" == "    ('";
    ReadEscaped(r.userName, more);
    assert row[6..] == Escape(r.userName) + "'" + more;
  }

  lemma Regroup<T>(a: seq<T>, b: seq<T>, e: seq<T>, c: seq<T>, s: seq<T>, j: seq<T>, p: seq<T>, z: seq<T>)
    ensures a + (b + e + c + s + j) + p + z == (a + b) + (e + c + (s + j + p + z))
  {
  }

  /** The components pushed for batch `i`. */
  function BatchParts(records: seq<ImportRecord>, i: nat): seq<Component>
    requires i < TotalBatches(|records|)
  {
    var info := InfoOf(records, i);
    [BatchHeader(info), Begin, InsertHead, ValuesRows(RowsOf(BatchData(records, i))), Gap,
     BatchCheck(info.batchNumber), Commit]
  }

  /** The components of every batch, batch by batch. */
  function Blocks(records: seq<ImportRecord>): (bs: seq<seq<Component>>)
    ensures |bs| == TotalBatches(|records|)
  {
    seq(TotalBatches(|records|), i requires 0 <= i < TotalBatches(|records|) => BatchParts(records, i))
  }

  /** The components of the first `k` batches. */
  function PartsUpTo(records: seq<ImportRecord>, k: nat): seq<Component>
    requires k <= TotalBatches(|records|)
  {
    FlattenUpTo(Blocks(records), k)
  }

  lemma MorePartsUpTo(records: seq<ImportRecord>, pre: seq<Component>, k: nat)
    requires k < TotalBatches(|records|)
    ensures pre + PartsUpTo(records, k + 1) == pre + PartsUpTo(records, k) + BatchParts(records, k)
  {
    assert Blocks(records)[k] == BatchParts(records, k);
  }

  /** The infos of the first `k` batches. */
  function InfosUpTo(records: seq<ImportRecord>, k: nat): (infos: seq<BatchInfo>)
    requires k <= TotalBatches(|records|)
  {
    seq(k, i requires 0 <= i < k => InfoOf(records, i))
  }

  lemma MoreInfos(records: seq<ImportRecord>, k: nat, infos: seq<BatchInfo>)
    requires k < TotalBatches(|records|) && infos == InfosUpTo(records, k)
    ensures infos + [InfoOf(records, k)] == InfosUpTo(records, k + 1)
  {
    var longer := InfosUpTo(records, k + 1);
    assert |infos + [InfoOf(records, k)]| == |longer|;
    forall i | 0 <= i < k + 1
      ensures (infos + [InfoOf(records, k)])[i] == longer[i]
    {
      if i < k {
        assert infos[i] == InfoOf(records, i);
      }
    }
  }

  /** The header comment, the foreign-key pragma and the backup statements. */
  function Prelude(n: nat, generatedAt: string, userCount: nat): seq<Component>
  {
    [FileHeader(n, userCount, generatedAt), ForeignKeysComment, ForeignKeysPragma, BackupStatements]
  }

  /** The whole script, component by component. */
  function Script(records: seq<ImportRecord>, generatedAt: string, userCount: nat): seq<Component>
  {
    Prelude(|records|, generatedAt, userCount) + PartsUpTo(records, TotalBatches(|records|))
      + [FinalSummary(|records|)]
  }

  /**
   * `generateSQLScript` from the loaded records on: `generatedAt` stands for the clock and
   * `userCount` for the number of users in the template's statistics.
   */
  method GenerateSqlScript(importData: seq<ImportRecord>, generatedAt: string, userCount: nat)
    returns (sqlComponents: seq<Component>, batches: seq<BatchInfo>)
    ensures sqlComponents == Script(importData, generatedAt, userCount)
    ensures batches == InfosUpTo(importData, TotalBatches(|importData|))
  {
    sqlComponents := Prelude(|importData|, generatedAt, userCount);
    batches := [];
    ghost var pre := sqlComponents;
    var totalBatches := (|importData| + 500 - 1) / 500;
    var batchIndex := 0;
    while batchIndex < totalBatches
      invariant 0 <= batchIndex <= totalBatches
      invariant sqlComponents == pre + PartsUpTo(importData, batchIndex)
      invariant batches == InfosUpTo(importData, batchIndex)
    {
      sqlComponents, batches := AddBatch(importData, batchIndex, totalBatches, sqlComponents, batches, pre);
      batchIndex := batchIndex + 1;
    }
    sqlComponents := sqlComponents + [FinalSummary(|importData|)];
  }

  /** One pass of the batch loop: batch `batchIndex` pushed onto both arrays. */
  method AddBatch(importData: seq<ImportRecord>, batchIndex: nat, totalBatches: nat,
                  sqlComponents: seq<Component>, batches: seq<BatchInfo>, ghost pre: seq<Component>)
    returns (sqlComponents': seq<Component>, batches': seq<BatchInfo>)
    requires totalBatches == TotalBatches(|importData|) && batchIndex < totalBatches
    requires sqlComponents == pre + PartsUpTo(importData, batchIndex)
    requires batches == InfosUpTo(importData, batchIndex)
    ensures sqlComponents' == pre + PartsUpTo(importData, batchIndex + 1)
    ensures batches' == InfosUpTo(importData, batchIndex + 1)
  {
    var parts, info := BatchStep(importData, batchIndex, totalBatches);
    batches' := batches + [info];
    sqlComponents' := sqlComponents + parts;
    MorePartsUpTo(importData, pre, batchIndex);
    MoreInfos(importData, batchIndex, batches);
  }

  /** The batch's info and the components it pushes. */
  method BatchStep(importData: seq<ImportRecord>, batchIndex: nat, totalBatches: nat)
    returns (parts: seq<Component>, info: BatchInfo)
    requires totalBatches == TotalBatches(|importData|) && batchIndex < totalBatches
    ensures info == InfoOf(importData, batchIndex)
    ensures parts == BatchParts(importData, batchIndex)
  {
    TotalBatchesMeaning(|importData|);
    var startIndex := batchIndex * 500;
    var endIndex := Min(startIndex + 500, |importData|);
    var batchData := importData[startIndex..endIndex];
    info := BatchInfo(batchIndex + 1, totalBatches, |batchData|, startIndex, endIndex - 1,
                      Dedupe(UserNamesOf(batchData)), SortedInts(RoundsOf(batchData)));
    var valuesClauses := RowsOf(batchData);
    parts := [BatchHeader(info), Begin, InsertHead, ValuesRows(valuesClauses), Gap,
              BatchCheck(info.batchNumber), Commit];
  }

  /**
   * Reading the components in order with a transaction open or not: the state after
   * them, or `None` when a BEGIN comes inside a transaction, a COMMIT outside one, or
   * VALUES outside one.
   */
  function OpenAfter(cs: seq<Component>, open: bool): Option<bool>
    decreases |cs|
  {
    if cs == [] then Some(open)
    else if cs[0].Begin? then (if open then None else OpenAfter(cs[1..], true))
    else if cs[0].Commit? then (if open then OpenAfter(cs[1..], false) else None)
    else if cs[0].ValuesRows? && !open then None
    else OpenAfter(cs[1..], open)
  }

  lemma {:induction false} OpenAfterAppend(a: seq<Component>, b: seq<Component>, open: bool)
    ensures OpenAfter(a + b, open) == match OpenAfter(a, open) case None => None case Some(o) => OpenAfter(b, o)
    decreases |a|
  {
    if a == [] {
      assert a + b == b;
    } else {
      assert (a + b)[0] == a[0];
      assert (a + b)[1..] == a[1..] + b;
      OpenAfterAppend(a[1..], b, true);
      OpenAfterAppend(a[1..], b, false);
    }
  }

  /** One batch's components open a transaction before the VALUES and close it at the end. */
  lemma BatchBalanced(info: BatchInfo, text: seq<string>, n: nat)
    ensures OpenAfter([BatchHeader(info), Begin, InsertHead, ValuesRows(text), Gap, BatchCheck(n), Commit], false)
            == Some(false)
  {
    var c6 := [Commit];
    var c5 := [BatchCheck(n)] + c6;
    var c4 := [Gap] + c5;
    var c3 := [ValuesRows(text)] + c4;
    var c2 := [InsertHead] + c3;
    var c1 := [Begin] + c2;
    var c0 := [BatchHeader(info)] + c1;
    assert c6[1..] == [] && c5[1..] == c6 && c4[1..] == c5 && c3[1..] == c4;
    assert c2[1..] == c3 && c1[1..] == c2 && c0[1..] == c1;
    assert OpenAfter(c6, true) == Some(false);
    assert OpenAfter(c5, true) == Some(false);
    assert OpenAfter(c4, true) == Some(false);
    assert OpenAfter(c3, true) == Some(false);
    assert OpenAfter(c2, true) == Some(false);
    assert OpenAfter(c1, false) == Some(false);
    assert c0 == [BatchHeader(info), Begin, InsertHead, ValuesRows(text), Gap, BatchCheck(n), Commit];
  }

  lemma BalancedConcat(a: seq<Component>, b: seq<Component>)
    requires OpenAfter(a, false) == Some(false) && OpenAfter(b, false) == Some(false)
    ensures OpenAfter(a + b, false) == Some(false)
  {
    OpenAfterAppend(a, b, false);
  }

  lemma BatchPartsBalanced(records: seq<ImportRecord>, i: nat, parts: seq<Component>)
    requires i < TotalBatches(|records|) && parts == BatchParts(records, i)
    ensures OpenAfter(parts, false) == Some(false)
  {
    var info := InfoOf(records, i);
    BatchBalanced(info, RowsOf(BatchData(records, i)), info.batchNumber);
  }

  lemma PreludeBalanced(n: nat, generatedAt: string, userCount: nat)
    ensures OpenAfter(Prelude(n, generatedAt, userCount), false) == Some(false)
    ensures OpenAfter([FinalSummary(n)], false) == Some(false)
  {
    var c3 := [BackupStatements];
    var c2 := [ForeignKeysPragma] + c3;
    var c1 := [ForeignKeysComment] + c2;
    var c0 := [FileHeader(n, userCount, generatedAt)] + c1;
    assert c3[1..] == [] && c2[1..] == c3 && c1[1..] == c2 && c0[1..] == c1;
    assert OpenAfter(c3, false) == Some(false);
    assert OpenAfter(c2, false) == Some(false);
    assert OpenAfter(c1, false) == Some(false);
    assert c0 == Prelude(n, generatedAt, userCount);
    assert [FinalSummary(n)][1..] == [];
  }

  lemma {:induction false} FlattenBalanced(bs: seq<seq<Component>>, k: nat)
    requires k <= |bs|
    requires forall j :: 0 <= j < |bs| ==> OpenAfter(bs[j], false) == Some(false)
    ensures OpenAfter(FlattenUpTo(bs, k), false) == Some(false)
  {
    if k > 0 {
      FlattenBalanced(bs, k - 1);
      BalancedConcat(FlattenUpTo(bs, k - 1), bs[k - 1]);
    }
  }

  lemma PartsBalanced(records: seq<ImportRecord>, k: nat)
    requires k <= TotalBatches(|records|)
    ensures OpenAfter(PartsUpTo(records, k), false) == Some(false)
  {
    var bs := Blocks(records);
    forall j | 0 <= j < |bs|
      ensures OpenAfter(bs[j], false) == Some(false)
    {
      BatchPartsBalanced(records, j, bs[j]);
    }
    FlattenBalanced(bs, k);
  }

  /**
   * Every batch's INSERT sits inside its own BEGIN TRANSACTION … COMMIT: no transaction
   * nests, no VALUES runs outside one, and none is left open at the end.
   */
  lemma {:induction false} TransactionsWrapBatches(records: seq<ImportRecord>, generatedAt: string, userCount: nat)
    ensures OpenAfter(Script(records, generatedAt, userCount), false) == Some(false)
  {
    var pre := Prelude(|records|, generatedAt, userCount);
    var parts := PartsUpTo(records, TotalBatches(|records|));
    assert Script(records, generatedAt, userCount) == pre + parts + [FinalSummary(|records|)];
    PartsBalanced(records, TotalBatches(|records|));
    PreludeBalanced(|records|, generatedAt, userCount);
    BalancedConcat(pre, parts);
    BalancedConcat(pre + parts, [FinalSummary(|records|)]);
  }
}
