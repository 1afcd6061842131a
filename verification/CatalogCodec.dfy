/** The catalog of the Windows archive: a magic line followed by one line per record id, oldest first. */
module CatalogCodec {
  import opened Common
  import opened SnapshotCodec

  const CATALOG_MAGIC: Bytes := [67, 80, 71, 65, 73, 49, 10] // CPGAI1 and a newline
  const NEWLINE: Byte := 10

  /** Record ids are 32 lower-case hexadecimal characters. */
  predicate IsId(id: Bytes) {
    |id| == 32 && forall i :: 0 <= i < 32 ==> 48 <= id[i] <= 57 || 97 <= id[i] <= 102
  }

  ghost predicate Distinct(ids: seq<Bytes>) {
    forall i, j :: 0 <= i < j < |ids| ==> ids[i] != ids[j]
  }

  function Lines(ids: seq<Bytes>): Bytes {
    if ids == [] then [] else Lines(ids[..|ids| - 1]) + (ids[|ids| - 1] + [NEWLINE])
  }

  function Cataloged(ids: seq<Bytes>): Result<Bytes> {
    if |ids| > MAX_ROWS || exists i :: 0 <= i < |ids| && !IsId(ids[i]) then Failed
    else Ok(CATALOG_MAGIC + Lines(ids))
  }

  method Catalog(ids: seq<Bytes>) returns (r: Result<Bytes>)
    ensures r == Cataloged(ids)
  {
    if |ids| > MAX_ROWS {
      return Failed;
    }
    hide IsId;
    var result := CATALOG_MAGIC;
    for i := 0 to |ids|
      invariant result == CATALOG_MAGIC + Lines(ids[..i])
      invariant forall j :: 0 <= j < i ==> IsId(ids[j])
    {
      if !IsId(ids[i]) {
        return Failed;
      }
      assert ids[..i + 1][..i] == ids[..i];
      Regroup(CATALOG_MAGIC, Lines(ids[..i]), ids[i] + [NEWLINE]);
      result := result + (ids[i] + [NEWLINE]);
    }
    assert ids[..|ids|] == ids;
    return Ok(result);
  }

  /** Everything a catalog must satisfy to be accepted with exactly these ids. */
  ghost predicate CatalogOf(raw: Bytes, ids: seq<Bytes>) {
    Distinct(ids) && Cataloged(ids) == Ok(raw)
  }

  lemma {:induction false} LinesSize(ids: seq<Bytes>)
    requires forall i :: 0 <= i < |ids| ==> |ids[i]| == 32
    ensures |Lines(ids)| == 33 * |ids|
  {
    if ids != [] {
      LinesSize(ids[..|ids| - 1]);
    }
  }

  lemma LineAt(ids: seq<Bytes>, k: nat)
    requires k < |ids| && forall i :: 0 <= i < |ids| ==> |ids[i]| == 32
    ensures |Lines(ids)| == 33 * |ids| && Lines(ids)[33 * k..33 * k + 33] == ids[k] + [10]
  {
    LinesSize(ids);
    LinesSize(ids[..k]);
    LinesOfPrefix(ids, k + 1);
    LineAfter(ids, k);
  }

  /**
   * The catalog, byte by byte: the letters CPGAI1 and a newline, then 33 bytes for each id, its 32 characters and a
   * newline; written for at most 2000 ids, each of 32 lower-case hexadecimal digits.
   */
  lemma CatalogLayout(ids: seq<Bytes>)
    ensures Cataloged(ids).Ok? <==>
            && |ids| <= 2000
            && forall i :: 0 <= i < |ids| ==>
                 |ids[i]| == 32 && forall k :: 0 <= k < 32 ==> 48 <= ids[i][k] <= 57 || 97 <= ids[i][k] <= 102
    ensures Cataloged(ids).Ok? ==>
              var raw := Cataloged(ids).value;
              && |raw| == 7 + 33 * |ids| && raw[..7] == [67, 80, 71, 65, 73, 49, 10]
              && forall k :: 0 <= k < |ids| ==> raw[7 + 33 * k..][..33] == ids[k] + [10]
  {
    if Cataloged(ids).Ok? {
      var raw := Cataloged(ids).value;
      LinesSize(ids);
      hide Lines;
      forall k | 0 <= k < |ids| ensures |raw| == 7 + 33 * |ids| && raw[7 + 33 * k..][..33] == ids[k] + [10] {
        LineAt(ids, k);
        assert raw[7 + 33 * k..][..33] == Lines(ids)[33 * k..33 * k + 33];
      }
    }
  }

  /** The lines determine the ids. */
  lemma {:induction false} LinesInjective(a: seq<Bytes>, b: seq<Bytes>)
    requires forall i :: 0 <= i < |a| ==> |a[i]| == 32
    requires forall i :: 0 <= i < |b| ==> |b[i]| == 32
    requires Lines(a) == Lines(b)
    ensures a == b
  {
    LinesSize(a);
    LinesSize(b);
    if a != [] {
      var n := |a| - 1;
      LinesSize(a[..n]);
      LinesSize(b[..n]);
      var whole := Lines(a);
      assert whole[..33 * n] == Lines(a[..n]) && whole[..33 * n] == Lines(b[..n]);
      assert whole[33 * n..] == a[n] + [NEWLINE] && whole[33 * n..] == b[n] + [NEWLINE];
      assert whole[33 * n..][..32] == a[n] && whole[33 * n..][..32] == b[n];
      LinesInjective(a[..n], b[..n]);
      assert a == a[..n] + [a[n]] && b == b[..n] + [b[n]];
    }
  }

  /** A catalog denotes at most one list of ids. */
  lemma CatalogInjective(raw: Bytes, a: seq<Bytes>, b: seq<Bytes>)
    requires Cataloged(a) == Ok(raw) && Cataloged(b) == Ok(raw)
    ensures a == b
  {
    assert raw[|CATALOG_MAGIC|..] == Lines(a) && raw[|CATALOG_MAGIC|..] == Lines(b);
    LinesInjective(a, b);
  }

  lemma {:induction false} LinesOfPrefix(ids: seq<Bytes>, k: nat)
    requires k <= |ids|
    ensures Lines(ids[..k]) <= Lines(ids)
  {
    if k == |ids| {
      assert ids[..k] == ids;
    } else {
      var shorter := ids[..|ids| - 1];
      LinesOfPrefix(shorter, k);
      assert shorter[..k] == ids[..k];
    }
  }

  /** A list whose lines start another list's lines starts that list. */
  lemma LinesPrefix(ids: seq<Bytes>, done: seq<Bytes>)
    requires forall i :: 0 <= i < |ids| ==> |ids[i]| == 32
    requires forall i :: 0 <= i < |done| ==> |done[i]| == 32
    requires Lines(done) <= Lines(ids)
    ensures |done| <= |ids| && ids[..|done|] == done
    ensures |done| == |ids| ==> done == ids
  {
    LinesSize(ids);
    LinesSize(done);
    LinesSize(ids[..|done|]);
    LinesOfPrefix(ids, |done|);
    hide Lines;
    assert Lines(ids[..|done|]) == Lines(ids)[..33 * |done|] == Lines(done);
    LinesInjective(ids[..|done|], done);
    assert ids[..|ids|] == ids;
  }

  lemma LineAfter(ids: seq<Bytes>, k: nat)
    requires k < |ids|
    ensures Lines(ids[..k + 1]) == Lines(ids[..k]) + (ids[k] + [NEWLINE])
  {
    assert ids[..k + 1][..k] == ids[..k];
  }

  lemma SamePrefix(a: Bytes, b: Bytes, c: Bytes)
    requires a + b <= a + c
    ensures b <= c
  {
    assert (a + c)[|a|..] == c && (a + b)[|a|..] == b;
    assert (a + c)[..|a| + |b|] == a + b;
  }

  lemma CatalogSize(raw: Bytes, ids: seq<Bytes>)
    requires CatalogOf(raw, ids)
    ensures |raw| == 7 + 33 * |ids| && |ids| <= MAX_ROWS && CATALOG_MAGIC <= raw && raw[7..] == Lines(ids)
  {
    LinesSize(ids);
  }

  /** In a catalog that starts with the lines of `done`, the next 33 bytes are the next id and a newline. */
  lemma NextLine(ids: seq<Bytes>, done: seq<Bytes>, rest: Bytes)
    requires forall i :: 0 <= i < |ids| ==> |ids[i]| == 32
    requires forall i :: 0 <= i < |done| ==> |done[i]| == 32
    requires Lines(ids) == Lines(done) + rest && rest != []
    ensures |done| < |ids| && ids[..|done|] == done
    ensures |rest| >= 33 && rest[..32] == ids[|done|] && rest[32] == NEWLINE
  {
    hide Lines;
    LinesPrefix(ids, done);
    var k := |done|;
    LinesOfPrefix(ids, k + 1);
    LineAfter(ids, k);
    var line := ids[k] + [NEWLINE];
    assert Lines(done) + line <= Lines(done) + rest;
    SamePrefix(Lines(done), line, rest);
    assert rest[..33] == line;
    assert rest[..32] == rest[..33][..32];
  }

  /** Accepts exactly the outputs of `Catalog` for distinct ids, and returns those ids. */
  method Parse(raw: Bytes) returns (r: Result<seq<Bytes>>)
    ensures match r
            case Ok(ids) => CatalogOf(raw, ids)
            case Failed => forall ids :: !CatalogOf(raw, ids)
    ensures r == Parsed(raw)
  {
    if !(CATALOG_MAGIC <= raw) {
      Misshapen(raw);
      return Failed;
    }
    var rest := raw[7..];
    if |rest| % 33 != 0 || |rest| / 33 > MAX_ROWS {
      Misshapen(raw);
      return Failed;
    }
    hide IsId, Lines, CatalogOf, Parsed, Cataloged;
    var result: seq<Bytes>, seen: set<Bytes> := [], {};
    assert Lines([]) == [] by { NoLines(); }
    while rest != []
      invariant |rest| % 33 == 0 && 33 * |result| + |rest| == |raw| - 7
      invariant raw[7..] == Lines(result) + rest
      invariant forall i :: 0 <= i < |result| ==> IsId(result[i])
      invariant Distinct(result) && seen == set i | 0 <= i < |result| :: result[i]
    {
      IdsAreLong(result);
      var id := rest[..32];
      if !IsId(id) || rest[32] != NEWLINE || id in seen {
        Rejected(raw, result, rest);
        return Failed;
      }
      OneMoreLine(raw, result, rest);
      result := result + [id];
      seen := seen + {id};
      rest := rest[33..];
    }
    assert raw[7..] == Lines(result);
    AllParsed(raw, result);
    return Ok(result);
  }

  lemma NoLines()
    ensures Lines([]) == []
  {
  }

  lemma IdsAreLong(ids: seq<Bytes>)
    requires forall i :: 0 <= i < |ids| ==> IsId(ids[i])
    ensures forall i :: 0 <= i < |ids| ==> |ids[i]| == 32
  {
  }

  /** Without the magic line, or with a size no list of ids has, nothing is a catalog. */
  lemma Misshapen(raw: Bytes)
    requires !(CATALOG_MAGIC <= raw) || |raw[7..]| % 33 != 0 || |raw[7..]| / 33 > MAX_ROWS
    ensures Parsed(raw) == Failed && forall ids :: !CatalogOf(raw, ids)
  {
    forall ids ensures !CatalogOf(raw, ids) {
      if CatalogOf(raw, ids) {
        CatalogSize(raw, ids);
      }
    }
  }

  lemma OneMoreLine(raw: Bytes, done: seq<Bytes>, rest: Bytes)
    requires |raw| >= 7 && |rest| >= 33 && raw[7..] == Lines(done) + rest && rest[32] == NEWLINE
    ensures raw[7..] == Lines(done + [rest[..32]]) + rest[33..]
  {
    var id := rest[..32];
    assert (done + [id])[..|done|] == done;
    assert rest == (id + [NEWLINE]) + rest[33..];
    hide IsId;
    Regroup(Lines(done), id + [NEWLINE], rest[33..]);
  }

  lemma AllParsed(raw: Bytes, ids: seq<Bytes>)
    requires CATALOG_MAGIC <= raw && raw[7..] == Lines(ids) && |ids| <= MAX_ROWS && Distinct(ids)
    requires forall i :: 0 <= i < |ids| ==> IsId(ids[i])
    ensures CatalogOf(raw, ids) && Parsed(raw) == Ok(ids)
  {
    hide IsId, Lines;
    assert raw == CATALOG_MAGIC + Lines(ids);
    assert CatalogOf(raw, ids);
    CatalogInjective(raw, ids, Parsed(raw).value);
  }

  lemma Rejected(raw: Bytes, done: seq<Bytes>, rest: Bytes)
    requires CATALOG_MAGIC <= raw && raw[7..] == Lines(done) + rest && |rest| >= 33
    requires forall i :: 0 <= i < |done| ==> |done[i]| == 32
    requires !IsId(rest[..32]) || rest[32] != NEWLINE || rest[..32] in done
    ensures Parsed(raw) == Failed && forall ids :: !CatalogOf(raw, ids)
  {
    forall ids ensures !CatalogOf(raw, ids) {
      if CatalogOf(raw, ids) {
        CatalogSize(raw, ids);
        NextLine(ids, done, rest);
      }
    }
  }

  /** The list of ids a stored catalog stands for, if it is well formed. */
  ghost function Parsed(raw: Bytes): Result<seq<Bytes>> {
    if exists ids :: CatalogOf(raw, ids) then (var ids :| CatalogOf(raw, ids); Ok(ids)) else Failed
  }

  /** Reading inverts writing exactly when no id is repeated, and writing always inverts reading. */
  lemma ParseInvertsCatalog(ids: seq<Bytes>)
    requires Cataloged(ids).Ok?
    ensures Parsed(Cataloged(ids).value) == Ok(ids) <==> Distinct(ids)
    ensures Distinct(ids) || Parsed(Cataloged(ids).value).Failed?
  {
    var raw := Cataloged(ids).value;
    if other :| CatalogOf(raw, other) {
      CatalogInjective(raw, ids, other);
    }
    if Distinct(ids) {
      assert CatalogOf(raw, ids);
      CatalogInjective(raw, ids, Parsed(raw).value);
    }
  }

  lemma CatalogInvertsParse(raw: Bytes)
    requires Parsed(raw).Ok?
    ensures Distinct(Parsed(raw).value) && Cataloged(Parsed(raw).value) == Ok(raw)
    ensures |Parsed(raw).value| <= MAX_ROWS
    ensures forall i :: 0 <= i < |Parsed(raw).value| ==> IsId(Parsed(raw).value[i])
  {
  }
}
