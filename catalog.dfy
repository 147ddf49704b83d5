/** The constellation catalog: `read_star_mapping` turns the mapping file
    into a star -> channel dictionary and `read_constellations` turns the
    constellation file into one 0.0/1.0 target vector per `@` group. Both
    read an already-split sequence of lines. Each parser is a method with
    the source's loop, specified by a function over the lines read so far.
    That function first classifies every line (blank or comment, header,
    star, ...) and then folds over the classes; the lemmas say what the fold
    means, in terms of the classes. */
module Catalog {
  import opened Wrappers
  import opened PyText
  import opened Vectors

  /** `NUM_CHANS`: the width of every constellation vector the daemon builds. */
  const NumChans: nat := 48

  /** The exceptions the parsers can raise; `line` is the index of the
      offending line. */
  datatype Error =
    | ValueError(line: nat)   // `int()` or the two-name unpacking rejects the line
    | KeyError(star: int)     // a listed star that the mapping does not know
    | TypeError(line: nat)    // a star listed before any `@` header (indexing None)
    | IndexError(line: nat)   // a mapped channel outside the vector

  /** Blank and `#` lines, which both parsers skip. */
  predicate IsSkipped(line: string) {
    var t := Strip(line);
    t == [] || t[0] == '#'
  }

  /** A constellation header: a line whose stripped text starts with `@`. */
  predicate IsHeader(line: string) {
    !IsSkipped(line) && Strip(line)[0] == '@'
  }

  // ---------------------------------------------------------------------
  // read_star_mapping

  /** The `(channel, star)` pair of a mapping line, when the line splits
      into exactly two integers. `line.split(None, 2)` unpacks into two
      names exactly when the full split has two fields. */
  function Entry(line: string): Option<(int, int)> {
    var f := Fields(Strip(line));
    if |f| != 2 then None
    else match (ParseInt(f[0]), ParseInt(f[1]))
      case (Some(ch), Some(star)) => Some((ch, star))
      case _ => None
  }

  /** A line of the mapping file, classified. */
  datatype MapLine = MapSkip | MapPair(ch: int, star: int) | MapBad

  function MapLineOf(line: string): MapLine {
    if IsSkipped(line) then MapSkip
    else match Entry(line)
      case Some((ch, star)) => MapPair(ch, star)
      case None => MapBad
  }

  function MapLines(lines: seq<string>): seq<MapLine> {
    seq(|lines|, i requires 0 <= i < |lines| => MapLineOf(lines[i]))
  }

  /** Whitespace-only and `#` mapping lines are skipped. */
  lemma MapSkipLines(pre: string, rest: string)
    requires AllSpace(pre)
    ensures MapLineOf(pre) == MapSkip
    ensures MapLineOf(pre + ['#'] + rest) == MapSkip
  {
    StripAllSpace(pre);
    assert pre + ['#'] + rest == pre + (['#'] + rest);
    StripFirst(pre, ['#'] + rest);
  }

  lemma PairFields(ch: int, star: int)
    ensures Fields(IntText(ch) + " " + IntText(star)) == [IntText(ch), IntText(star)]
  {
    FieldsSplit(IntText(ch), ' ', IntText(star));
    FieldsOne(IntText(ch));
    FieldsOne(IntText(star));
  }

  lemma PairEntry(line: string, ch: int, star: int)
    requires Fields(Strip(line)) == [IntText(ch), IntText(star)]
    ensures Entry(line) == Some((ch, star))
  {
    ParseIntDecimal(ch);
    ParseIntDecimal(star);
  }

  /** A line `ch star`, with any surrounding whitespace, is the pair
      `(ch, star)`. */
  lemma MapPairLine(pre: string, suf: string, ch: int, star: int)
    requires AllSpace(pre) && AllSpace(suf)
    ensures MapLineOf(pre + IntText(ch) + " " + IntText(star) + suf) == MapPair(ch, star)
  {
    var t := IntText(ch) + " " + IntText(star);
    var line := pre + IntText(ch) + " " + IntText(star) + suf;
    assert t[0] == IntText(ch)[0] && t[|t| - 1] == IntText(star)[|IntText(star)| - 1];
    assert line == pre + t + suf;
    StripExact(pre, t, suf);
    PairFields(ch, star);
    PairEntry(line, ch, star);
  }

  /** The dictionary built from the classified lines `ks` (or the error). */
  function MappingFrom(ks: seq<MapLine>): Result<map<int, int>, Error>
    decreases |ks|
  {
    if ks == [] then Ok(map[])
    else match MappingFrom(ks[..|ks| - 1])
      case Err(e) => Err(e)
      case Ok(m) =>
        match ks[|ks| - 1]
        case MapSkip => Ok(m)
        case MapPair(ch, star) => Ok(m[star := ch])
        case MapBad => Err(ValueError(|ks| - 1))
  }

  /** What `read_star_mapping` returns (or raises) for `lines`. */
  function MappingOf(lines: seq<string>): Result<map<int, int>, Error> {
    MappingFrom(MapLines(lines))
  }

  lemma {:induction false} MappingErrSticks(ks: seq<MapLine>, k: nat, e: Error)
    requires k <= |ks| && MappingFrom(ks[..k]) == Err(e)
    ensures MappingFrom(ks) == Err(e)
    decreases |ks| - k
  {
    if k < |ks| {
      assert ks[..k + 1][..k] == ks[..k];
      MappingErrSticks(ks, k + 1, e);
    } else {
      assert ks[..k] == ks;
    }
  }

  /** One more line on top of an accepted prefix. */
  lemma MappingStep(ks: seq<MapLine>, i: nat, m: map<int, int>)
    requires i < |ks| && MappingFrom(ks[..i]) == Ok(m)
    ensures ks[i].MapSkip? ==> MappingFrom(ks[..i + 1]) == Ok(m)
    ensures ks[i].MapPair? ==> MappingFrom(ks[..i + 1]) == Ok(m[ks[i].star := ks[i].ch])
    ensures ks[i].MapBad? ==> MappingFrom(ks[..i + 1]) == Err(ValueError(i))
  {
    assert ks[..i + 1][..i] == ks[..i];
  }

  /** `read_star_mapping(fn)` over the lines of the file. */
  method ReadStarMapping(lines: seq<string>) returns (r: Result<map<int, int>, Error>)
    ensures r == MappingOf(lines)
  {
    ghost var ks := MapLines(lines);
    var ret: map<int, int> := map[];
    for i := 0 to |lines|
      invariant MappingFrom(ks[..i]) == Ok(ret)
    {
      MappingStep(ks, i, ret);
      var line := Strip(lines[i]);
      if line == [] || line[0] == '#' {
        assert ks[i] == MapSkip;
        continue;
      }
      var f := Fields(line);
      if |f| != 2 {
        assert ks[i] == MapBad;
        MappingErrSticks(ks, i + 1, ValueError(i));
        return Err(ValueError(i));
      }
      var ch, star := ParseInt(f[0]), ParseInt(f[1]);
      if ch.None? || star.None? {
        assert ks[i] == MapBad;
        MappingErrSticks(ks, i + 1, ValueError(i));
        return Err(ValueError(i));
      }
      assert ks[i] == MapPair(ch.value, star.value);
      ret := ret[star.value := ch.value];
    }
    assert ks[..|lines|] == ks;
    return Ok(ret);
  }

  /** Line `i` gives star `star` a channel. */
  predicate Defines(ks: seq<MapLine>, i: int, star: int) {
    0 <= i < |ks| && ks[i].MapPair? && ks[i].star == star
  }

  /** The mapping file is accepted exactly when every line is blank, a
      comment, or two integers. */
  lemma {:induction false} MappingOkIff(ks: seq<MapLine>)
    ensures MappingFrom(ks).Ok? <==> forall i :: 0 <= i < |ks| ==> !ks[i].MapBad?
  {
    if ks != [] {
      var p := ks[..|ks| - 1];
      MappingOkIff(p);
      assert forall i :: 0 <= i < |p| ==> p[i] == ks[i];
    }
  }

  /** The dictionary after all lines: the one before the last line, with
      the last line's pair (if any) stored over it. */
  lemma MappingSnoc(ks: seq<MapLine>)
    requires ks != [] && MappingFrom(ks).Ok?
    ensures MappingFrom(ks[..|ks| - 1]).Ok?
    ensures forall j :: 0 <= j < |ks| - 1 ==> ks[..|ks| - 1][j] == ks[j]
    ensures MappingFrom(ks).value ==
      (var m0 := MappingFrom(ks[..|ks| - 1]).value;
       if ks[|ks| - 1].MapPair? then m0[ks[|ks| - 1].star := ks[|ks| - 1].ch] else m0)
  {
  }

  lemma {:induction false} MappingHas(ks: seq<MapLine>, star: int)
    requires MappingFrom(ks).Ok?
    ensures star in MappingFrom(ks).value <==> exists i :: Defines(ks, i, star)
  {
    if ks != [] {
      var p := ks[..|ks| - 1];
      MappingSnoc(ks);
      MappingHas(p, star);
      if Defines(ks, |ks| - 1, star) {
        assert star in MappingFrom(ks).value;
      }
      if exists i :: Defines(ks, i, star) {
        var i :| Defines(ks, i, star);
        if i < |p| {
          assert Defines(p, i, star);
        }
      }
      if exists i :: Defines(p, i, star) {
        var i :| Defines(p, i, star);
        assert Defines(ks, i, star);
      }
    }
  }

  lemma {:induction false} MappingLast(ks: seq<MapLine>, star: int)
    requires MappingFrom(ks).Ok? && star in MappingFrom(ks).value
    ensures exists i ::
      Defines(ks, i, star) && ks[i].ch == MappingFrom(ks).value[star] &&
      forall j :: i < j < |ks| ==> !Defines(ks, j, star)
  {
    var p := ks[..|ks| - 1];
    var last := |ks| - 1;
    MappingSnoc(ks);
    if Defines(ks, last, star) {
      assert ks[last].ch == MappingFrom(ks).value[star];
    } else {
      var m0 := MappingFrom(p).value;
      assert star in m0 && MappingFrom(ks).value[star] == m0[star];
      MappingLast(p, star);
      var i :| Defines(p, i, star) && p[i].ch == m0[star] &&
        forall j :: i < j < |p| ==> !Defines(p, j, star);
      assert Defines(ks, i, star);
      forall j | i < j < |ks|
        ensures !Defines(ks, j, star)
      {
        if j < last {
          assert !Defines(p, j, star);
        }
      }
    }
  }

  /** Every star named in the file is in the dictionary, no other; its
      channel is the one on the LAST line naming it (no duplicate check). */
  lemma MappingLastWins(ks: seq<MapLine>, star: int)
    requires MappingFrom(ks).Ok?
    ensures star in MappingFrom(ks).value <==> exists i :: Defines(ks, i, star)
    ensures star in MappingFrom(ks).value ==>
      exists i :: Defines(ks, i, star) && ks[i].ch == MappingFrom(ks).value[star] &&
        forall j :: i < j < |ks| ==> !Defines(ks, j, star)
  {
    MappingHas(ks, star);
    if star in MappingFrom(ks).value {
      MappingLast(ks, star);
    }
  }

  // ---------------------------------------------------------------------
  // read_constellations

  /** A line of the constellation file, classified: `ConstBad` is a line
      `int()` rejects. */
  datatype ConstLine = ConstSkip | ConstHeader | ConstStar(star: int) | ConstBad

  function ConstLineOf(line: string): ConstLine {
    if IsSkipped(line) then ConstSkip
    else if IsHeader(line) then ConstHeader
    else match ParseInt(Strip(line))
      case Some(star) => ConstStar(star)
      case None => ConstBad
  }

  function ConstLines(lines: seq<string>): seq<ConstLine> {
    seq(|lines|, i requires 0 <= i < |lines| => ConstLineOf(lines[i]))
  }

  /** Whitespace-only and `#` constellation lines are skipped. */
  lemma ConstSkipLines(pre: string, rest: string)
    requires AllSpace(pre)
    ensures ConstLineOf(pre) == ConstSkip
    ensures ConstLineOf(pre + ['#'] + rest) == ConstSkip
  {
    StripAllSpace(pre);
    assert pre + ['#'] + rest == pre + (['#'] + rest);
    StripFirst(pre, ['#'] + rest);
  }

  /** A line starting with `@` after any whitespace is a header. */
  lemma HeaderLine(pre: string, rest: string)
    requires AllSpace(pre)
    ensures ConstLineOf(pre + ['@'] + rest) == ConstHeader
  {
    assert pre + ['@'] + rest == pre + (['@'] + rest);
    StripFirst(pre, ['@'] + rest);
  }

  /** An integer, with any surrounding whitespace, is a star line. */
  lemma StarLine(pre: string, suf: string, star: int)
    requires AllSpace(pre) && AllSpace(suf)
    ensures ConstLineOf(pre + IntText(star) + suf) == ConstStar(star)
  {
    var t := IntText(star);
    StripExact(pre, t, suf);
    ParseIntDecimal(star);
    StarText(pre + t + suf, t, star);
  }

  lemma StarText(line: string, t: string, star: int)
    requires Strip(line) == t && t != [] && (t[0] == '-' || IsDigit(t[0]))
    requires ParseInt(t) == Some(star)
    ensures ConstLineOf(line) == ConstStar(star)
  {
    assert !IsSkipped(line) && !IsHeader(line);
  }

  /** The parser's state between lines: the vectors appended to `ret` so
      far and `curr_const` (None before the first header). */
  datatype Scan = Scan(done: seq<seq<real>>, group: Option<seq<real>>)

  /** `if curr_const:` -- a list is true when it is not empty. */
  predicate Truthy(group: Option<seq<real>>) {
    group.Some? && |group.value| > 0
  }

  /** The groups completed so far plus the open one, as appended when a
      header or the end of the file closes it. */
  function Groups(st: Scan): seq<seq<real>> {
    if Truthy(st.group) then st.done + [st.group.value] else st.done
  }

  /** Python's list index: a negative index counts from the end. */
  function Slot(ch: int, len: nat): int {
    if ch < 0 then len + ch else ch
  }

  /** Line `i`, of class `k`, applied to the parser's state. */
  function ScanStep(st: Scan, k: ConstLine, i: nat, mapping: map<int, int>, n: nat): Result<Scan, Error> {
    match k
    case ConstSkip => Ok(st)
    case ConstHeader => Ok(Scan(Groups(st), Some(Zeros(n))))
    case ConstBad => Err(ValueError(i))
    case ConstStar(star) =>
      if star !in mapping then Err(KeyError(star))
      else if st.group.None? then Err(TypeError(i))
      else
        var g, ch := st.group.value, mapping[star];
        if -|g| <= ch < |g| then Ok(Scan(st.done, Some(g[Slot(ch, |g|) := 1.0])))
        else Err(IndexError(i))
  }

  /** The parser's state after the classified lines `ks`, for vectors of
      width `n`. */
  function ScanFrom(ks: seq<ConstLine>, mapping: map<int, int>, n: nat): Result<Scan, Error>
    decreases |ks|
  {
    if ks == [] then Ok(Scan([], None))
    else match ScanFrom(ks[..|ks| - 1], mapping, n)
      case Err(e) => Err(e)
      case Ok(st) => ScanStep(st, ks[|ks| - 1], |ks| - 1, mapping, n)
  }

  /** The vectors built from the classified lines: the open group is
      emitted at the end of the file. */
  function GroupsFrom(ks: seq<ConstLine>, mapping: map<int, int>, n: nat): Result<seq<seq<real>>, Error> {
    match ScanFrom(ks, mapping, n)
    case Err(e) => Err(e)
    case Ok(st) => Ok(Groups(st))
  }

  /** What `read_constellations` returns (or raises) for `lines`, building
      vectors of width `n`. */
  function ConstellationsOf(lines: seq<string>, mapping: map<int, int>, n: nat): Result<seq<seq<real>>, Error> {
    GroupsFrom(ConstLines(lines), mapping, n)
  }

  lemma {:induction false} ScanErrSticks(ks: seq<ConstLine>, mapping: map<int, int>, n: nat, k: nat, e: Error)
    requires k <= |ks| && ScanFrom(ks[..k], mapping, n) == Err(e)
    ensures ScanFrom(ks, mapping, n) == Err(e)
    decreases |ks| - k
  {
    if k < |ks| {
      assert ks[..k + 1][..k] == ks[..k];
      ScanErrSticks(ks, mapping, n, k + 1, e);
    } else {
      assert ks[..k] == ks;
    }
  }

  lemma ScanFromNext(ks: seq<ConstLine>, mapping: map<int, int>, n: nat, i: nat)
    requires i < |ks|
    ensures ScanFrom(ks[..i], mapping, n).Err? ==> ScanFrom(ks[..i + 1], mapping, n) == ScanFrom(ks[..i], mapping, n)
    ensures ScanFrom(ks[..i], mapping, n).Ok? ==>
      ScanFrom(ks[..i + 1], mapping, n) == ScanStep(ScanFrom(ks[..i], mapping, n).value, ks[i], i, mapping, n)
  {
    assert ks[..i + 1][..i] == ks[..i];
  }

  /** The per-line tests of `read_constellations`: strip; skip blank and
      `#` lines; a leading `@` opens a group; anything else goes to
      `int()`. */
  method ClassifyConstLine(line: string) returns (k: ConstLine)
    ensures k == ConstLineOf(line)
  {
    var t := Strip(line);
    if t == [] || t[0] == '#' {
      return ConstSkip;
    }
    if t[0] == '@' {
      return ConstHeader;
    }
    var starNum := ParseInt(t);
    if starNum.None? {
      return ConstBad;
    }
    return ConstStar(starNum.value);
  }

  /** One line's effect on the open group and the finished vectors, in the
      source's order of checks: the mapping lookup, then the open group,
      then the index. */
  method ApplyConstLine(k: ConstLine, ret: seq<seq<real>>, currConst: Option<seq<real>>, i: nat,
                        mapping: map<int, int>, numChans: nat)
    returns (r: Result<Scan, Error>)
    ensures r == ScanStep(Scan(ret, currConst), k, i, mapping, numChans)
  {
    match k
    case ConstSkip =>
      return Ok(Scan(ret, currConst));
    case ConstHeader =>
      var done := ret;
      if Truthy(currConst) {
        done := done + [currConst.value];
      }
      return Ok(Scan(done, Some(Zeros(numChans))));
    case ConstBad =>
      return Err(ValueError(i));
    case ConstStar(starNum) =>
      if starNum !in mapping {
        return Err(KeyError(starNum));
      }
      var starCh := mapping[starNum];
      if currConst.None? {
        return Err(TypeError(i));
      }
      var g := currConst.value;
      if !(-|g| <= starCh < |g|) {
        return Err(IndexError(i));
      }
      return Ok(Scan(ret, Some(g[Slot(starCh, |g|) := 1.0])));
  }

  /** `read_constellations(fn, mapping)` over the lines of the file, with
      vectors of width `numChans` (the source uses NUM_CHANS). */
  method ReadConstellations(lines: seq<string>, mapping: map<int, int>, numChans: nat)
    returns (r: Result<seq<seq<real>>, Error>)
    ensures r == ConstellationsOf(lines, mapping, numChans)
  {
    ghost var ks := ConstLines(lines);
    var ret: seq<seq<real>> := [];
    var currConst: Option<seq<real>> := None;
    for i := 0 to |lines|
      invariant ScanFrom(ks[..i], mapping, numChans) == Ok(Scan(ret, currConst))
    {
      ScanFromNext(ks, mapping, numChans, i);
      var k := ClassifyConstLine(lines[i]);
      assert ks[i] == k;
      var step := ApplyConstLine(k, ret, currConst, i, mapping, numChans);
      if step.Err? {
        ScanErrSticks(ks, mapping, numChans, i + 1, step.error);
        return Err(step.error);
      }
      ret, currConst := step.value.done, step.value.group;
    }
    assert ks[..|lines|] == ks;
    if Truthy(currConst) {
      ret := ret + [currConst.value];
    }
    return Ok(ret);
  }

  /** The number of `@` headers among `ks`. */
  function Headers(ks: seq<ConstLine>): nat
    decreases |ks|
  {
    if ks == [] then 0
    else Headers(ks[..|ks| - 1]) + (if ks[|ks| - 1].ConstHeader? then 1 else 0)
  }

  lemma {:induction false} HeadersPrefix(ks: seq<ConstLine>, i: nat)
    requires i <= |ks|
    ensures Headers(ks[..i]) <= Headers(ks)
    decreases |ks|
  {
    if i < |ks| {
      var p := ks[..|ks| - 1];
      assert p[..i] == ks[..i];
      HeadersPrefix(p, i);
    } else {
      assert ks[..i] == ks;
    }
  }

  /** The open group exists exactly once a header has been read, every
      vector has width `n`, and (for a positive width) there is one vector
      per header. */
  lemma {:induction false} ScanShape(ks: seq<ConstLine>, mapping: map<int, int>, n: nat, st: Scan)
    requires ScanFrom(ks, mapping, n) == Ok(st)
    ensures st.group.Some? <==> Headers(ks) > 0
    ensures st.group.Some? ==> |st.group.value| == n
    ensures |Groups(st)| == if n > 0 then Headers(ks) else 0
    ensures forall j :: 0 <= j < |Groups(st)| ==> |Groups(st)[j]| == n
  {
    if ks != [] {
      var p := ks[..|ks| - 1];
      var st0 := ScanFrom(p, mapping, n).value;
      ScanShape(p, mapping, n, st0);
      match ks[|ks| - 1]
      case ConstSkip =>
      case ConstHeader =>
        assert Groups(st) == if n > 0 then Groups(st0) + [Zeros(n)] else [];
      case ConstStar(star) =>
        var g := st0.group.value;
        var g' := g[Slot(mapping[star], |g|) := 1.0];
        assert |g'| == n > 0;
        assert Groups(st0) == st0.done + [g];
        assert Groups(st) == st0.done + [g'];
        forall j | 0 <= j < |Groups(st)|
          ensures |Groups(st)[j]| == n
        {
          if j < |st0.done| {
            assert Groups(st)[j] == Groups(st0)[j];
          }
        }
    }
  }

  /** Line `i` is accepted by the parser given what precedes it. */
  predicate Accepted(ks: seq<ConstLine>, i: nat, mapping: map<int, int>, n: nat)
    requires i < |ks|
  {
    match ks[i]
    case ConstSkip => true
    case ConstHeader => true
    case ConstBad => false
    case ConstStar(star) => star in mapping && Headers(ks[..i]) > 0 && -(n as int) <= mapping[star] < n
  }

  /** The constellation file is accepted exactly when every star line holds
      an integer, that star is in the mapping, a header precedes it, and
      its channel indexes the vector. So a star missing from the mapping,
      or listed before the first `@`, makes the whole read fail. */
  lemma {:induction false} ScanOkIff(ks: seq<ConstLine>, mapping: map<int, int>, n: nat)
    ensures GroupsFrom(ks, mapping, n).Ok? <==> forall i :: 0 <= i < |ks| ==> Accepted(ks, i, mapping, n)
  {
    if ks != [] {
      var p := ks[..|ks| - 1];
      var last := |ks| - 1;
      ScanOkIff(p, mapping, n);
      forall i | 0 <= i < |p|
        ensures Accepted(ks, i, mapping, n) <==> Accepted(p, i, mapping, n)
      {
        assert ks[i] == p[i] && ks[..i] == p[..i];
      }
      assert ks[..last] == p;
      if ScanFrom(p, mapping, n).Ok? {
        var st0 := ScanFrom(p, mapping, n).value;
        ScanShape(p, mapping, n, st0);
        assert ScanFrom(ks, mapping, n).Ok? <==> Accepted(ks, last, mapping, n);
      } else {
        assert !ScanFrom(ks, mapping, n).Ok?;
      }
    }
  }

  /** The exception a rejected line raises, in the source's order of
      failures: `int()`, then the mapping lookup, then indexing the open
      group (None before the first header), then the index range. */
  function Rejection(ks: seq<ConstLine>, i: nat, mapping: map<int, int>): Error
    requires i < |ks| && (ks[i].ConstBad? || ks[i].ConstStar?)
  {
    if ks[i].ConstBad? then ValueError(i)
    else if ks[i].star !in mapping then KeyError(ks[i].star)
    else if Headers(ks[..i]) == 0 then TypeError(i)
    else IndexError(i)
  }

  /** A failed read reports the first line that is not accepted, with that
      line's exception. */
  lemma FirstRejection(ks: seq<ConstLine>, mapping: map<int, int>, n: nat, i: nat)
    requires i < |ks| && !Accepted(ks, i, mapping, n)
    requires forall j :: 0 <= j < i ==> Accepted(ks, j, mapping, n)
    ensures GroupsFrom(ks, mapping, n) == Err(Rejection(ks, i, mapping))
  {
    var p := ks[..i];
    forall j | 0 <= j < |p|
      ensures Accepted(p, j, mapping, n)
    {
      assert Accepted(ks, j, mapping, n);
      assert ks[j] == p[j] && ks[..j] == p[..j];
    }
    ScanOkIff(p, mapping, n);
    var st := ScanFrom(p, mapping, n).value;
    ScanShape(p, mapping, n, st);
    ScanFromNext(ks, mapping, n, i);
    ScanErrSticks(ks, mapping, n, i + 1, Rejection(ks, i, mapping));
  }

  /** Line `i` lists a star of group `j` (0-based) whose channel lands in
      slot `c` of a width-`n` vector. */
  predicate Marks(ks: seq<ConstLine>, mapping: map<int, int>, n: nat, i: int, j: int, c: int) {
    0 <= i < |ks| && ks[i].ConstStar? && Headers(ks[..i]) == j + 1 &&
    ks[i].star in mapping && -(n as int) <= mapping[ks[i].star] < n && Slot(mapping[ks[i].star], n) == c
  }

  /** Some line lists a star of group `j` that lands in slot `c`. */
  ghost predicate Marked(ks: seq<ConstLine>, mapping: map<int, int>, n: nat, j: int, c: int) {
    exists i :: Marks(ks, mapping, n, i, j, c)
  }

  lemma MarkedSplit(ks: seq<ConstLine>, mapping: map<int, int>, n: nat, j: int, c: int)
    requires ks != []
    ensures Marked(ks, mapping, n, j, c) <==>
      Marked(ks[..|ks| - 1], mapping, n, j, c) || Marks(ks, mapping, n, |ks| - 1, j, c)
  {
    var p := ks[..|ks| - 1];
    forall i | 0 <= i < |p|
      ensures Marks(ks, mapping, n, i, j, c) <==> Marks(p, mapping, n, i, j, c)
    {
      assert ks[i] == p[i] && ks[..i] == p[..i];
    }
    if Marked(ks, mapping, n, j, c) {
      var i :| Marks(ks, mapping, n, i, j, c);
      if i < |p| {
        assert Marks(p, mapping, n, i, j, c);
      }
    }
    if Marked(p, mapping, n, j, c) {
      var i :| Marks(p, mapping, n, i, j, c);
      assert Marks(ks, mapping, n, i, j, c);
    }
  }

  /** Group `j` has 1.0 in slot `c` exactly when a star listed under the
      `j`-th header maps there, and 0.0 otherwise. */
  lemma {:induction false} ScanMembers(ks: seq<ConstLine>, mapping: map<int, int>, n: nat, st: Scan, j: int, c: int)
    requires ScanFrom(ks, mapping, n) == Ok(st)
    requires 0 <= j < |Groups(st)| && 0 <= c < n
    ensures |Groups(st)[j]| == n
    ensures Groups(st)[j][c] == if Marked(ks, mapping, n, j, c) then 1.0 else 0.0
  {
    ScanShape(ks, mapping, n, st);
    var p := ks[..|ks| - 1];
    var last := |ks| - 1;
    assert ks[..last] == p;
    var st0 := ScanFrom(p, mapping, n).value;
    ScanShape(p, mapping, n, st0);
    MarkedSplit(ks, mapping, n, j, c);
    match ks[last]
    case ConstSkip =>
      ScanMembers(p, mapping, n, st0, j, c);
    case ConstHeader =>
      assert Groups(st) == Groups(st0) + [Zeros(n)];
      if j < |Groups(st0)| {
        ScanMembers(p, mapping, n, st0, j, c);
      } else {
        forall i | 0 <= i < |p|
          ensures !Marks(p, mapping, n, i, j, c)
        {
          HeadersPrefix(p, i);
        }
      }
    case ConstStar(star) =>
      var g := st0.group.value;
      var slot := Slot(mapping[star], |g|);
      assert Groups(st0) == st0.done + [g];
      assert Groups(st) == st0.done + [g[slot := 1.0]];
      ScanMembers(p, mapping, n, st0, j, c);
  }

  /** One vector per `@` header, in file order, including empty groups and
      the group still open at the end of the file; each vector has width
      `n` and holds 1.0 exactly at the channels of the stars listed under
      its header, 0.0 elsewhere. */
  lemma GroupsMeaning(ks: seq<ConstLine>, mapping: map<int, int>, n: nat, j: int, c: int)
    requires n > 0 && GroupsFrom(ks, mapping, n).Ok?
    ensures |GroupsFrom(ks, mapping, n).value| == Headers(ks)
    ensures 0 <= j < Headers(ks) && 0 <= c < n ==>
      var v := GroupsFrom(ks, mapping, n).value[j];
      |v| == n && v[c] == if Marked(ks, mapping, n, j, c) then 1.0 else 0.0
  {
    var st := ScanFrom(ks, mapping, n).value;
    ScanShape(ks, mapping, n, st);
    if 0 <= j < Headers(ks) && 0 <= c < n {
      ScanMembers(ks, mapping, n, st, j, c);
    }
  }

  /** The worked example: groups `@A / 1 / 2` and `@B / 3` (no trailing
      header) with mapping {1: 0, 2: 1, 3: 2} and width 4. */
  lemma TwoGroupsExample()
    ensures GroupsFrom([ConstHeader, ConstStar(1), ConstStar(2), ConstHeader, ConstStar(3)], map[1 := 0, 2 := 1, 3 := 2], 4)
      == Ok([[1.0, 1.0, 0.0, 0.0], [0.0, 0.0, 1.0, 0.0]])
  {
    var m := map[1 := 0, 2 := 1, 3 := 2];
    var k1 := [ConstHeader];
    var k2 := k1 + [ConstStar(1)];
    var k3 := k2 + [ConstStar(2)];
    var k4 := k3 + [ConstHeader];
    var k5 := k4 + [ConstStar(3)];
    assert k5 == [ConstHeader, ConstStar(1), ConstStar(2), ConstHeader, ConstStar(3)];
    assert k5[..4] == k4 && k4[..3] == k3 && k3[..2] == k2 && k2[..1] == k1 && k1[..0] == [];
    var z := Zeros(4);
    assert z == [0.0, 0.0, 0.0, 0.0];
    assert ScanFrom(k1, m, 4) == Ok(Scan([], Some(z)));
    assert ScanFrom(k2, m, 4) == Ok(Scan([], Some(z[0 := 1.0])));
    assert ScanFrom(k3, m, 4) == Ok(Scan([], Some(z[0 := 1.0][1 := 1.0])));
    assert Groups(Scan([], Some(z[0 := 1.0][1 := 1.0]))) == [z[0 := 1.0][1 := 1.0]];
    assert ScanFrom(k4, m, 4) == Ok(Scan([z[0 := 1.0][1 := 1.0]], Some(z)));
    assert ScanFrom(k5, m, 4) == Ok(Scan([z[0 := 1.0][1 := 1.0]], Some(z[2 := 1.0])));
    assert Groups(Scan([z[0 := 1.0][1 := 1.0]], Some(z[2 := 1.0]))) == [z[0 := 1.0][1 := 1.0], z[2 := 1.0]];
    assert z[0 := 1.0][1 := 1.0] == [1.0, 1.0, 0.0, 0.0] && z[2 := 1.0] == [0.0, 0.0, 1.0, 0.0];
  }
}
