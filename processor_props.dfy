/**
 * Properties of the processor model: what the lock stage writes, which pages and coordinates get
 * signed, which annotation lines are shown, which engine calls an unprotected job makes, and how
 * the job counters add up.
 */
module ProcessorProperties {
  import opened Common
  import opened Processor

  // ---------------------------------------------------------------------------------------------
  // Permissions.

  /** Each permission's flag is the power of two of its bit position, counted from 1. */
  lemma PermissionFlagIsBit(p: Permission)
    ensures PermissionFlag(p) == Pow2(PermissionBit(p) - 1)
  {
    assert Pow2(5) == 32;
    assert Pow2(8) == 256 && Pow2(11) == 2048;
    match p
    case Printing =>
    case Modify =>
    case ExtractGraphics =>
    case Annotate =>
    case FillForms =>
    case DisabilityExtract =>
    case RotateInsert =>
    case FullPrintQuality =>
  }

  /** The locked document grants every user permission, each once; the or of their flags is 3900. */
  lemma {:induction false} LockGrantsEverything()
    ensures forall p: Permission :: p in LockPermissions
    ensures forall i, j :: 0 <= i < j < |LockPermissions| ==> LockPermissions[i] != LockPermissions[j]
    ensures Flags(LockPermissions) == 3900
  {
    var ps := LockPermissions;
    forall p: Permission
      ensures p in ps
    {
      match p
      case Printing => assert ps[0] == p;
      case FullPrintQuality => assert ps[1] == p;
      case Modify => assert ps[2] == p;
      case Annotate => assert ps[3] == p;
      case FillForms => assert ps[4] == p;
      case RotateInsert => assert ps[5] == p;
      case ExtractGraphics => assert ps[6] == p;
      case DisabilityExtract => assert ps[7] == p;
    }
    assert Flags(ps[7..]) == 512 by { assert ps[7..][1..] == []; }
    assert Flags(ps[6..]) == 16 + 512 by { assert ps[6..][1..] == ps[7..]; }
    assert Flags(ps[5..]) == 1024 + 528 by { assert ps[5..][1..] == ps[6..]; }
    assert Flags(ps[4..]) == 256 + 1552 by { assert ps[4..][1..] == ps[5..]; }
    assert Flags(ps[3..]) == 32 + 1808 by { assert ps[3..][1..] == ps[4..]; }
    assert Flags(ps[2..]) == 8 + 1840 by { assert ps[2..][1..] == ps[3..]; }
    assert Flags(ps[1..]) == 2048 + 1848 by { assert ps[1..][1..] == ps[2..]; }
    assert Flags(ps) == 4 + 3896;
  }

  // ---------------------------------------------------------------------------------------------
  // The lock stage.

  /** One page of a successful copy: it was fetched and added, and the rest was copied after it. */
  lemma CopyPagesStep(e: Engine, rd: Reader, from: int, n: int, written: seq<Page>)
    requires from <= n && CopyPages(e, rd, from, n, written).0.Ok?
    ensures e.getPage(rd, from).Ok? && e.addPage(written, e.getPage(rd, from).value).Ok?
    ensures var g := e.getPage(rd, from).value; var rest := CopyPages(e, rd, from + 1, n, written + [g]);
      rest.0.Ok? && CopyPages(e, rd, from, n, written) == (rest.0, [GetPage(rd, from), AddPage(g)] + rest.1)
  {
  }

  /** A successful copy keeps the earlier pages and adds one page for each page number `from`..`n`. */
  lemma {:induction false} CopiedLength(e: Engine, rd: Reader, from: int, n: int, written: seq<Page>)
    requires CopyPages(e, rd, from, n, written).0.Ok?
    ensures var pages := CopyPages(e, rd, from, n, written).0.value;
      |pages| == |written| + Span(from, n) && pages[..|written|] == written
    decreases n + 1 - from
  {
    if from <= n {
      CopyPagesStep(e, rd, from, n, written);
      var before := written + [e.getPage(rd, from).value];
      CopiedLength(e, rd, from + 1, n, before);
      var pages := CopyPages(e, rd, from + 1, n, before).0.value;
      assert pages[..|written|] == pages[..|before|][..|written|];
    }
  }

  /** Page `from + i` of a successful copy was fetched from the reader and added after the pages
      before it. */
  lemma {:induction false} CopiedPage(e: Engine, rd: Reader, from: int, n: int, written: seq<Page>, i: nat)
    requires CopyPages(e, rd, from, n, written).0.Ok? && i < Span(from, n)
    ensures |written| + i < |CopyPages(e, rd, from, n, written).0.value|
    ensures var pages := CopyPages(e, rd, from, n, written).0.value;
      e.getPage(rd, from + i) == Ok(pages[|written| + i])
      && e.addPage(pages[..|written| + i], pages[|written| + i]).Ok?
    decreases i
  {
    CopyPagesStep(e, rd, from, n, written);
    var before := written + [e.getPage(rd, from).value];
    CopiedLength(e, rd, from + 1, n, before);
    var pages := CopyPages(e, rd, from + 1, n, before).0.value;
    if i == 0 {
      assert pages[|written|] == pages[..|before|][|written|];
      assert pages[..|written|] == pages[..|before|][..|written|];
    } else {
      CopiedPage(e, rd, from + 1, n, before, i - 1);
      assert from + 1 + (i - 1) == from + i;
    }
  }

  /** A successful page copy: the writer holds the earlier pages then every page `from`..`n` as the
      reader returned it, and every AddPage succeeded. */
  lemma CopyPagesSucceeds(e: Engine, rd: Reader, from: int, n: int, written: seq<Page>)
    requires CopyPages(e, rd, from, n, written).0.Ok?
    ensures |written| <= |CopyPages(e, rd, from, n, written).0.value|
    ensures var pages := CopyPages(e, rd, from, n, written).0.value; var added := pages[|written|..];
      pages == written + added && |added| == Span(from, n)
      && (forall i :: 0 <= i < |added| ==>
            e.getPage(rd, from + i) == Ok(added[i]) && e.addPage(written + added[..i], added[i]).Ok?)
  {
    CopiedLength(e, rd, from, n, written);
    var pages := CopyPages(e, rd, from, n, written).0.value;
    var added := pages[|written|..];
    assert pages == written + added;
    forall i | 0 <= i < |added|
      ensures e.getPage(rd, from + i) == Ok(added[i]) && e.addPage(written + added[..i], added[i]).Ok?
    {
      CopiedPage(e, rd, from, n, written, i);
      assert pages[..|written| + i] == written + added[..i];
    }
  }

  /** A successful page copy fetched then added each new page, in order. */
  lemma {:induction false} CopyPagesCalls(e: Engine, rd: Reader, from: int, n: int, written: seq<Page>)
    requires CopyPages(e, rd, from, n, written).0.Ok?
    requires |written| <= |CopyPages(e, rd, from, n, written).0.value|
    ensures var r := CopyPages(e, rd, from, n, written);
      r.1 == PageCalls(rd, r.0.value[|written|..], from)
    decreases n + 1 - from
  {
    if from <= n {
      CopyPagesStep(e, rd, from, n, written);
      var g := e.getPage(rd, from).value;
      var before := written + [g];
      CopiedLength(e, rd, from + 1, n, before);
      CopyPagesCalls(e, rd, from + 1, n, before);
      var pages := CopyPages(e, rd, from + 1, n, before).0.value;
      var added := pages[|written|..];
      assert added[0] == g;
      assert added[1..] == pages[|before|..];
    } else {
      assert CopyPages(e, rd, from, n, written).0.value[|written|..] == [];
    }
  }

  /** A copy that stops after `pages`: each of them was fetched and added after the ones before it,
      then the next fetch, or the addition of the page it returned, failed with `error`, the last
      call made. */
  predicate CopyStoppedAt(e: Engine, rd: Reader, from: int, written: seq<Page>, pages: seq<Page>,
                          error: string, calls: seq<Call>)
  {
    (forall i :: 0 <= i < |pages| ==>
       e.getPage(rd, from + i) == Ok(pages[i]) && e.addPage(written + pages[..i], pages[i]).Ok?)
    && var got := e.getPage(rd, from + |pages|);
       if got.Err? then
         error == got.error && calls == PageCalls(rd, pages, from) + [GetPage(rd, from + |pages|)]
       else
         e.addPage(written + pages, got.value) == Err(error)
         && calls == PageCalls(rd, pages, from) + [GetPage(rd, from + |pages|), AddPage(got.value)]
  }

  /** One more page copied before the stop. */
  lemma CopyStoppedStep(e: Engine, rd: Reader, from: int, written: seq<Page>, g: Page, pages: seq<Page>,
                        error: string, calls: seq<Call>)
    requires e.getPage(rd, from) == Ok(g) && e.addPage(written, g).Ok?
    requires CopyStoppedAt(e, rd, from + 1, written + [g], pages, error, calls)
    ensures CopyStoppedAt(e, rd, from, written, [g] + pages, error, [GetPage(rd, from), AddPage(g)] + calls)
  {
    var all := [g] + pages;
    assert all[1..] == pages;
    assert from + |all| == from + 1 + |pages|;
    assert written + all == written + [g] + pages;
    forall i | 0 <= i < |all|
      ensures e.getPage(rd, from + i) == Ok(all[i]) && e.addPage(written + all[..i], all[i]).Ok?
    {
      if i == 0 {
        assert written + all[..i] == written;
      } else {
        assert from + i == from + 1 + (i - 1);
        assert all[..i] == [g] + pages[..i - 1];
        assert written + all[..i] == (written + [g]) + pages[..i - 1];
      }
    }
  }

  /** A failed page copy stops at the first failing call, fetch or addition, in page order. */
  lemma {:induction false} CopyPagesStops(e: Engine, rd: Reader, from: int, n: int, written: seq<Page>)
    requires CopyPages(e, rd, from, n, written).0.Err?
    ensures var (res, calls) := CopyPages(e, rd, from, n, written);
      exists pages :: |pages| < Span(from, n) && CopyStoppedAt(e, rd, from, written, pages, res.error, calls)
    decreases n + 1 - from
  {
    var (res, calls) := CopyPages(e, rd, from, n, written);
    var g := e.getPage(rd, from);
    if g.Ok? && e.addPage(written, g.value).Ok? {
      CopyPagesStops(e, rd, from + 1, n, written + [g.value]);
      var rest := CopyPages(e, rd, from + 1, n, written + [g.value]);
      var pages :| |pages| < Span(from + 1, n) && CopyStoppedAt(e, rd, from + 1, written + [g.value], pages, res.error, rest.1);
      CopyStoppedStep(e, rd, from, written, g.value, pages, res.error, rest.1);
    } else {
      assert written + [] == written;
      assert CopyStoppedAt(e, rd, from, written, [], res.error, calls);
    }
  }

  /** A failed page copy stops at the first failing call, fetch or addition, in page order: the
      pages before it were all copied, and the copy returns that call's error. Only GetPage calls on
      this reader and AddPage calls are made, at most two per page. */
  lemma CopyPagesFails(e: Engine, rd: Reader, from: int, n: int, written: seq<Page>)
    requires CopyPages(e, rd, from, n, written).0.Err?
    ensures var (res, calls) := CopyPages(e, rd, from, n, written);
      exists pages :: |pages| < Span(from, n) && CopyStoppedAt(e, rd, from, written, pages, res.error, calls)
    ensures var (res, calls) := CopyPages(e, rd, from, n, written);
      1 <= |calls| <= 2 * Span(from, n)
      && (forall i :: 0 <= i < |calls| ==> (calls[i].GetPage? && calls[i].rd == rd) || calls[i].AddPage?)
      && (calls[|calls| - 1].GetPage? ==> e.getPage(rd, calls[|calls| - 1].number) == Err(res.error))
  {
    var (res, calls) := CopyPages(e, rd, from, n, written);
    CopyPagesStops(e, rd, from, n, written);
    var pages :| |pages| < Span(from, n) && CopyStoppedAt(e, rd, from, written, pages, res.error, calls);
    StoppedCalls(e, rd, from, written, pages, res.error, calls);
  }

  /** The calls of a copy that stopped: page fetches on `rd` and additions, two per copied page
      and one or two for the failing page, the last being the failing fetch if it is a fetch. */
  lemma StoppedCalls(e: Engine, rd: Reader, from: int, written: seq<Page>, pages: seq<Page>, error: string, calls: seq<Call>)
    requires CopyStoppedAt(e, rd, from, written, pages, error, calls)
    ensures 1 <= |calls| <= 2 * |pages| + 2
    ensures forall i :: 0 <= i < |calls| ==> (calls[i].GetPage? && calls[i].rd == rd) || calls[i].AddPage?
    ensures calls[|calls| - 1].GetPage? ==> e.getPage(rd, calls[|calls| - 1].number) == Err(error)
  {
    PageCallsKinds(rd, pages, from);
    var head := PageCalls(rd, pages, from);
    var got := e.getPage(rd, from + |pages|);
    var tail := if got.Err? then [GetPage(rd, from + |pages|)] else [GetPage(rd, from + |pages|), AddPage(got.value)];
    assert calls == head + tail;
    assert calls[|calls| - 1] == tail[|tail| - 1];
    forall i | 0 <= i < |calls|
      ensures (calls[i].GetPage? && calls[i].rd == rd) || calls[i].AddPage?
    {
      if i < |head| {
        assert calls[i] == head[i];
      } else {
        assert calls[i] == tail[i - |head|];
      }
    }
  }

  /** The calls of a successful copy are page fetches and additions only. */
  lemma {:induction false} PageCallsKinds(rd: Reader, pages: seq<Page>, from: int)
    ensures |PageCalls(rd, pages, from)| == 2 * |pages|
    ensures forall i :: 0 <= i < |PageCalls(rd, pages, from)| ==>
      var c := PageCalls(rd, pages, from)[i]; (c.GetPage? && c.rd == rd) || c.AddPage?
  {
    if pages != [] {
      PageCallsKinds(rd, pages[1..], from + 1);
    }
  }

  /** A successful lock: the document was not yet encrypted, had `n` pages, and the encrypted
      writer, locked with the password as both user and owner password and every permission
      granted, received exactly pages 1..n as the reader returned them before being written. */
  lemma LockSucceeds(e: Engine, rd: Reader, password: Bytes)
    requires LockSpec(e, rd, password).0.Ok?
    ensures e.isEncrypted(rd) == Ok(false) && e.numPages(rd).Ok?
    ensures var n := e.numPages(rd).value; var copied := CopyPages(e, rd, 1, n, []);
      copied.0.Ok?
      && var pages := copied.0.value;
         |pages| == Span(1, n)
         && (forall i :: 0 <= i < |pages| ==> e.getPage(rd, 1 + i) == Ok(pages[i]))
         && LockSpec(e, rd, password).0 == e.write(password, password, LockPermissions, pages)
         && LockSpec(e, rd, password).1 == LockHead(rd, password) + PageCalls(rd, pages, 1) + [WriteLocked]
  {
    var encrypted := e.isEncrypted(rd);
    assert encrypted.Ok? && !encrypted.value;
    var count := e.numPages(rd);
    assert count.Ok?;
    var copied := CopyPages(e, rd, 1, count.value, []);
    assert copied.0.Ok?;
    CopiedLength(e, rd, 1, count.value, []);
    CopyPagesCalls(e, rd, 1, count.value, []);
    var pages := copied.0.value;
    assert pages[0..] == pages;
    forall i | 0 <= i < |pages|
      ensures e.getPage(rd, 1 + i) == Ok(pages[i])
    {
      CopiedPage(e, rd, 1, count.value, [], i);
    }
  }

  /** The encrypted copy is written exactly when the document was unencrypted and every page was
      copied; the lock is applied, with the password as both passwords, whenever the document is
      known to be unencrypted. */
  lemma LockWritesOnlyWhenComplete(e: Engine, rd: Reader, password: Bytes)
    ensures var calls := LockSpec(e, rd, password).1;
      calls[0] == IsEncrypted(rd)
      && (e.isEncrypted(rd) == Ok(true) ==> LockSpec(e, rd, password) == (Err(ErrAlreadyProtected), [IsEncrypted(rd)]))
      && (e.isEncrypted(rd) == Ok(false) ==> calls[1] == Encrypt(password, password, LockPermissions))
      && (WriteLocked in calls <==>
            e.isEncrypted(rd) == Ok(false) && e.numPages(rd).Ok?
            && CopyPages(e, rd, 1, e.numPages(rd).value, []).0.Ok?)
  {
    var calls := LockSpec(e, rd, password).1;
    if e.isEncrypted(rd) == Ok(false) && e.numPages(rd).Ok? {
      var copied := CopyPages(e, rd, 1, e.numPages(rd).value, []);
      if copied.0.Err? {
        CopyPagesFails(e, rd, 1, e.numPages(rd).value, []);
        assert calls == LockHead(rd, password) + copied.1;
        forall i | 0 <= i < |calls|
          ensures calls[i] != WriteLocked
        {
          if i >= 3 {
            assert calls[i] == copied.1[i - 3];
          }
        }
      }
    }
  }

  // ---------------------------------------------------------------------------------------------
  // The sign stage.

  /** The number of pages listed by all coordinate blocks together. */
  function TotalPages(coords: seq<SignCoords>): (total: nat)
  {
    if coords == [] then 0 else |coords[0].pages| + TotalPages(coords[1..])
  }

  /** One block's targets: its pages, in order, all in that block. */
  lemma {:induction false} BlockTargetsAt(block: nat, pages: seq<int>)
    ensures |BlockTargets(block, pages)| == |pages|
    ensures forall i :: 0 <= i < |pages| ==> BlockTargets(block, pages)[i] == SignCall(block, pages[i])
  {
    if pages != [] {
      BlockTargetsAt(block, pages[1..]);
    }
  }

  /** The targets are one per listed page; blocks come in order, and every target names a page its
      block lists. */
  lemma {:induction false} TargetsShape(coords: seq<SignCoords>, base: nat)
    ensures var ts := Targets(coords, base);
      |ts| == TotalPages(coords)
      && (forall i :: 0 <= i < |ts| ==>
            base <= ts[i].block < base + |coords| && ts[i].page in coords[ts[i].block - base].pages)
      && (forall i, j :: 0 <= i <= j < |ts| ==> ts[i].block <= ts[j].block)
  {
    if coords != [] {
      var head := BlockTargets(base, coords[0].pages);
      var rest := Targets(coords[1..], base + 1);
      BlockTargetsAt(base, coords[0].pages);
      TargetsShape(coords[1..], base + 1);
      var ts := Targets(coords, base);
      forall i | 0 <= i < |ts|
        ensures base <= ts[i].block < base + |coords| && ts[i].page in coords[ts[i].block - base].pages
        ensures i < |head| ==> ts[i].block == base
        ensures i >= |head| ==> ts[i].block > base
      {
        if i < |head| {
          assert ts[i] == head[i];
        } else {
          assert ts[i] == rest[i - |head|];
          assert coords[1..][ts[i].block - (base + 1)] == coords[ts[i].block - base];
        }
      }
    }
  }

  /** A successful sign stage signs every listed page of every block, in order, each call
      succeeding, and makes no other call after the three set-up calls. */
  lemma SignSucceeds(e: Engine, cert: Certificate, pr: SignProps, rd: Reader)
    requires SignSpec(e, cert, pr, rd).0.Ok?
    ensures SignatureReady(e, cert, pr, rd)
    ensures var ap := SignSpec(e, cert, pr, rd).0.value; var calls := SignSpec(e, cert, pr, rd).1;
      var ts := Targets(pr.coords, 0);
      ap == e.newAppender(rd).value
      && |ts| == TotalPages(pr.coords) && |calls| == 3 + |ts|
      && calls[..3] == SignHead(rd, cert, pr)
      && (forall i :: 0 <= i < |ts| ==> calls[3 + i] == Sign(ap, ts[i]) && e.sign(ap, ts[..i], ts[i]).Ok?)
  {
    var ap := e.newAppender(rd).value;
    var ts := Targets(pr.coords, 0);
    TargetsShape(pr.coords, 0);
    SignCallsAt(ap, ts);
  }

  /** A sign stage that fails after set-up stops at the first failing Sign call, the last call it
      makes, and returns that call's error. */
  lemma SignStopsAtFirstFailure(e: Engine, cert: Certificate, pr: SignProps, rd: Reader)
    requires SignatureReady(e, cert, pr, rd) && SignSpec(e, cert, pr, rd).0.Err?
    ensures var ap := e.newAppender(rd).value; var calls := SignSpec(e, cert, pr, rd).1;
      var ts := Targets(pr.coords, 0); var k := FirstSignFailure(e, ap, ts, 0);
      k < |ts| && |calls| == 4 + k
      && calls[|calls| - 1] == Sign(ap, ts[k])
      && SignSpec(e, cert, pr, rd).0.error == e.sign(ap, ts[..k], ts[k]).error
      && (forall i :: 0 <= i < k ==> calls[3 + i] == Sign(ap, ts[i]) && e.sign(ap, ts[..i], ts[i]).Ok?)
  {
    var ap := e.newAppender(rd).value;
    var ts := Targets(pr.coords, 0);
    var k := FirstSignFailure(e, ap, ts, 0);
    SignCallsAt(ap, ts[..k + 1]);
  }

  // ---------------------------------------------------------------------------------------------
  // Annotation lines.

  /** The number of entries of all annotation maps together. */
  function TotalEntries(anns: seq<map<string, string>>): (total: nat)
  {
    if anns == [] then 0 else TotalEntries(anns[..|anns| - 1]) + |anns[|anns| - 1]|
  }

  /** The descriptions of the lines. */
  function Descs(lines: seq<SignatureLine>): (descs: set<string>)
  {
    if lines == [] then {} else Descs(lines[..|lines| - 1]) + {lines[|lines| - 1].desc}
  }

  /** Every line's description is listed. */
  lemma {:induction false} DescsHas(lines: seq<SignatureLine>, i: nat)
    requires i < |lines|
    ensures lines[i].desc in Descs(lines)
  {
    var init := lines[..|lines| - 1];
    if i < |init| {
      DescsHas(init, i);
      assert init[i] == lines[i];
    }
  }

  /** Every listed description is some line's. */
  lemma {:induction false} DescsFrom(lines: seq<SignatureLine>, x: string)
    requires x in Descs(lines)
    ensures exists i :: 0 <= i < |lines| && lines[i].desc == x
  {
    var init := lines[..|lines| - 1];
    if x != lines[|lines| - 1].desc {
      DescsFrom(init, x);
      var i :| 0 <= i < |init| && init[i].desc == x;
      assert lines[i] == init[i];
    }
  }

  /** Lines with distinct descriptions have as many descriptions as lines. */
  lemma {:induction false} DescsCount(lines: seq<SignatureLine>)
    requires forall i, j :: 0 <= i < j < |lines| ==> lines[i].desc != lines[j].desc
    ensures |Descs(lines)| == |lines|
  {
    if lines != [] {
      var init := lines[..|lines| - 1];
      var last := lines[|lines| - 1].desc;
      assert forall i, j :: 0 <= i < j < |init| ==> init[i].desc != init[j].desc by {
        forall i, j | 0 <= i < j < |init| ensures init[i].desc != init[j].desc {
          assert init[i] == lines[i] && init[j] == lines[j];
        }
      }
      DescsCount(init);
      if last in Descs(init) {
        DescsFrom(init, last);
        assert false;
      }
    }
  }

  /** A description is listed exactly when some line has it; distinct descriptions are as many as
      the lines. */
  lemma DescsOf(lines: seq<SignatureLine>)
    ensures forall x :: x in Descs(lines) <==> exists i :: 0 <= i < |lines| && lines[i].desc == x
    ensures (forall i, j :: 0 <= i < j < |lines| ==> lines[i].desc != lines[j].desc) ==> |Descs(lines)| == |lines|
  {
    forall x | x in Descs(lines)
      ensures exists i :: 0 <= i < |lines| && lines[i].desc == x
    {
      DescsFrom(lines, x);
    }
    forall x | exists i :: 0 <= i < |lines| && lines[i].desc == x
      ensures x in Descs(lines)
    {
      var i :| 0 <= i < |lines| && lines[i].desc == x;
      DescsHas(lines, i);
    }
    if forall i, j :: 0 <= i < j < |lines| ==> lines[i].desc != lines[j].desc {
      DescsCount(lines);
    }
  }

  /** An enumeration of a map shows every entry of the map. */
  lemma EnumeratesCovers(m: map<string, string>, lines: seq<SignatureLine>)
    requires Enumerates(m, lines)
    ensures forall key :: key in m ==> SignatureLine(key, m[key]) in lines
  {
    DescsOf(lines);
    var d := Descs(lines);
    assert d <= m.Keys;
    assert |m.Keys| == |m|;
    assert m.Keys == d + (m.Keys - d);
    assert d * (m.Keys - d) == {};
    assert (m.Keys - d) == {};
    forall key | key in m
      ensures SignatureLine(key, m[key]) in lines
    {
      assert key in d;
      var i :| 0 <= i < |lines| && lines[i].desc == key;
      assert lines[i] == SignatureLine(key, m[key]);
    }
  }

  /** An enumeration of a map shows entry `key` of the map. */
  lemma EnumeratesShows(m: map<string, string>, lines: seq<SignatureLine>, key: string)
    requires Enumerates(m, lines) && key in m
    ensures SignatureLine(key, m[key]) in lines
  {
    EnumeratesCovers(m, lines);
  }

  /** What a slice holds, the whole sequence holds. */
  lemma InSlice<T>(s: seq<T>, lo: nat, hi: nat, x: T)
    requires lo <= hi <= |s| && x in s[lo..hi]
    ensures x in s
  {
    var i :| 0 <= i < hi - lo && s[lo..hi][i] == x;
    assert s[lo + i] == x;
  }

  /** The annotation lines are as many as the entries of all maps together. */
  lemma {:induction false} LinesOfLength(anns: seq<map<string, string>>, lines: seq<SignatureLine>)
    requires LinesOf(anns, lines)
    ensures |lines| == TotalEntries(anns)
    decreases |anns|
  {
    if anns != [] {
      LinesOfLength(anns[..|anns| - 1], lines[..|lines| - |anns[|anns| - 1]|]);
    }
  }

  /** The annotation lines show entry `key` of map `k`. */
  lemma {:induction false} EntryShown(anns: seq<map<string, string>>, lines: seq<SignatureLine>, k: nat, key: string)
    requires LinesOf(anns, lines) && k < |anns| && key in anns[k]
    ensures SignatureLine(key, anns[k][key]) in lines
    decreases |anns|
  {
    var n := |anns| - 1;
    var cut := |lines| - |anns[n]|;
    if k == n {
      EnumeratesShows(anns[n], lines[cut..], key);
      InSlice(lines, cut, |lines|, SignatureLine(key, anns[k][key]));
    } else {
      assert anns[..n][k] == anns[k];
      EntryShown(anns[..n], lines[..cut], k, key);
      InSlice(lines, 0, cut, SignatureLine(key, anns[k][key]));
    }
  }

  /** The annotation lines show every entry of every map. */
  lemma LinesOfShowsEveryEntry(anns: seq<map<string, string>>, lines: seq<SignatureLine>)
    requires LinesOf(anns, lines)
    ensures forall k, key :: 0 <= k < |anns| && key in anns[k] ==> SignatureLine(key, anns[k][key]) in lines
  {
    forall k, key | 0 <= k < |anns| && key in anns[k]
      ensures SignatureLine(key, anns[k][key]) in lines
    {
      EntryShown(anns, lines, k, key);
    }
  }

  /** Line `i` of the annotation lines is an entry of one of the maps. */
  lemma {:induction false} LineIsEntry(anns: seq<map<string, string>>, lines: seq<SignatureLine>, i: nat)
    requires LinesOf(anns, lines) && i < |lines|
    ensures exists k :: 0 <= k < |anns| && lines[i].desc in anns[k] && anns[k][lines[i].desc] == lines[i].text
    decreases |anns|
  {
    var n := |anns| - 1;
    var cut := |lines| - |anns[n]|;
    if i >= cut {
      assert lines[cut..][i - cut] == lines[i];
      assert lines[i].desc in anns[n] && anns[n][lines[i].desc] == lines[i].text;
    } else {
      var init := anns[..n];
      LineIsEntry(init, lines[..cut], i);
      assert lines[..cut][i] == lines[i];
      var k :| 0 <= k < |init| && lines[i].desc in init[k] && init[k][lines[i].desc] == lines[i].text;
      assert anns[k] == init[k];
    }
  }

  /** The annotation lines show nothing but entries of the maps. */
  lemma LinesOfShowsOnlyEntries(anns: seq<map<string, string>>, lines: seq<SignatureLine>)
    requires LinesOf(anns, lines)
    ensures forall i :: 0 <= i < |lines| ==>
      exists k :: 0 <= k < |anns| && lines[i].desc in anns[k] && anns[k][lines[i].desc] == lines[i].text
  {
    forall i | 0 <= i < |lines|
      ensures exists k :: 0 <= k < |anns| && lines[i].desc in anns[k] && anns[k][lines[i].desc] == lines[i].text
    {
      LineIsEntry(anns, lines, i);
    }
  }

  // ---------------------------------------------------------------------------------------------
  // ProcessDoc.

  /** The trace touches no part of the lock stage: no encryption check, lock, decryption or
      encrypted write. */
  predicate NoLockCalls(calls: seq<Call>)
  {
    forall i :: 0 <= i < |calls| ==>
      !calls[i].IsEncrypted? && !calls[i].Encrypt? && !calls[i].Decrypt? && !calls[i].WriteLocked?
  }

  /** The sign stage makes no lock-stage call and starts by creating the appender on its reader. */
  lemma SignSpecCalls(e: Engine, cert: Certificate, pr: SignProps, rd: Reader)
    ensures NoLockCalls(SignSpec(e, cert, pr, rd).1)
    ensures SignSpec(e, cert, pr, rd).1[0] == NewAppender(rd)
  {
    var calls := SignSpec(e, cert, pr, rd).1;
    if SignatureReady(e, cert, pr, rd) {
      var ap := e.newAppender(rd).value;
      var ts := Targets(pr.coords, 0);
      var k := FirstSignFailure(e, ap, ts, 0);
      var signed := if k < |ts| then ts[..k + 1] else ts;
      SignCallsAt(ap, signed);
      assert calls == SignHead(rd, cert, pr) + SignCalls(ap, signed);
      forall i | 3 <= i < |calls|
        ensures calls[i].Sign?
      {
        assert calls[i] == SignCalls(ap, signed)[i - 3];
      }
    }
  }

  /** A job without a password never reaches the lock stage: the document is signed as it was
      opened, and the outcome is the sign stage's. */
  lemma EmptyPasswordSkipsLock(e: Engine, certs: map<string, Certificate>, certName: string, pr: SignProps, input: Bytes)
    ensures NoLockCalls(ProcessDocSpec(e, certs, certName, pr, [], input).1)
    ensures certName in certs && e.newReader(input).Ok? ==>
      var signed := SignSpec(e, certs[certName], pr, e.newReader(input).value);
      var calls := ProcessDocSpec(e, certs, certName, pr, [], input).1;
      |calls| >= 1 + |signed.1|
      && calls[..1 + |signed.1|] == [NewReader(input)] + signed.1
      && (ProcessDocSpec(e, certs, certName, pr, [], input).0.Ok? <==> signed.0.Ok?)
  {
    if certName in certs && e.newReader(input).Ok? {
      var signed := SignSpec(e, certs[certName], pr, e.newReader(input).value);
      SignSpecCalls(e, certs[certName], pr, e.newReader(input).value);
      var calls := ProcessDocSpec(e, certs, certName, pr, [], input).1;
      var head := [NewReader(input)] + signed.1;
      assert calls[..|head|] == head;
      forall i | 0 <= i < |calls|
        ensures !calls[i].IsEncrypted? && !calls[i].Encrypt? && !calls[i].Decrypt? && !calls[i].WriteLocked?
      {
        if 1 <= i < |head| {
          assert calls[i] == signed.1[i - 1];
        }
      }
    }
  }

  /** A password-protected job that succeeds was locked, re-opened and decrypted with that password,
      and signed on the re-opened document, not on the original. */
  lemma LockedJobSignsReopened(e: Engine, certs: map<string, Certificate>, certName: string, pr: SignProps,
                               password: Bytes, input: Bytes)
    requires |password| > 0
    requires ProcessDocSpec(e, certs, certName, pr, password, input).0.Ok?
    ensures certName in certs && e.newReader(input).Ok?
    ensures var locked := LockSpec(e, e.newReader(input).value, password);
      locked.0.Ok? && e.newReader(locked.0.value).Ok?
      && var reopened := e.newReader(locked.0.value).value;
         e.decrypt(reopened, password) == Ok(true)
         && NewAppender(reopened) in ProcessDocSpec(e, certs, certName, pr, password, input).1
         && Decrypt(reopened, password) in ProcessDocSpec(e, certs, certName, pr, password, input).1
  /** The lock stage's calls come first and end with the Decrypt; signing starts right after it,
      with NewAppender of the decrypted reader. */
  ensures var locked := LockSpec(e, e.newReader(input).value, password);
    var reopened := e.newReader(locked.0.value).value;
    var lockStage := [NewReader(input)] + locked.1 + [NewReader(locked.0.value), Decrypt(reopened, password)];
    var calls := ProcessDocSpec(e, certs, certName, pr, password, input).1;
    |lockStage| < |calls| && calls[..|lockStage|] == lockStage && calls[|lockStage|] == NewAppender(reopened)
  {
    var source := e.newReader(input).value;
    var locked := LockSpec(e, source, password);
    var reopened := e.newReader(locked.0.value).value;
    var signed := SignSpec(e, certs[certName], pr, reopened);
    SignSpecCalls(e, certs[certName], pr, reopened);
    var lockCalls := locked.1 + [NewReader(locked.0.value), Decrypt(reopened, password)];
    var calls := ProcessDocSpec(e, certs, certName, pr, password, input).1;
    assert calls == [NewReader(input)] + lockCalls + signed.1 + [Serialize(signed.0.value)];
    assert calls[1 + |lockCalls|] == NewAppender(reopened);
    assert calls[|lockCalls|] == Decrypt(reopened, password);
    assert calls[..1 + |lockCalls|] == [NewReader(input)] + lockCalls;
  }

  /** A successful job's output is the appender's serialisation after signing every listed page,
      which is the final call. */
  lemma ProcessDocSucceeds(e: Engine, certs: map<string, Certificate>, certName: string, pr: SignProps,
                           password: Bytes, input: Bytes)
    requires ProcessDocSpec(e, certs, certName, pr, password, input).0.Ok?
    ensures certName in certs && e.newReader(input).Ok?
    ensures var staged := LockStage(e, e.newReader(input).value, password);
      staged.0.Ok?
      && var signed := SignSpec(e, certs[certName], pr, staged.0.value);
         var calls := ProcessDocSpec(e, certs, certName, pr, password, input).1;
         signed.0.Ok?
         && ProcessDocSpec(e, certs, certName, pr, password, input).0
              == Ok(e.serialize(signed.0.value, Targets(pr.coords, 0)))
         && calls[|calls| - 1] == Serialize(signed.0.value)
         && |calls| == 1 + |staged.1| + 3 + TotalPages(pr.coords) + 1
  {
    var staged := LockStage(e, e.newReader(input).value, password);
    SignSucceeds(e, certs[certName], pr, staged.0.value);
  }

  // ---------------------------------------------------------------------------------------------
  // Job accounting.

  /** The number of successful outcomes. */
  function Successes(os: seq<bool>): (n: nat)
    ensures n <= |os|
  {
    if os == [] then 0 else Successes(os[..|os| - 1]) + (if os[|os| - 1] then 1 else 0)
  }

  /** Every job is counted once: successes as done, every other job as failed. */
  lemma {:induction false} TallyCounts(s: Stats, os: seq<bool>)
    ensures Tally(s, os).jobsDone == s.jobsDone + Successes(os)
    ensures Tally(s, os).jobsFailed == s.jobsFailed + (|os| - Successes(os))
    ensures Tally(s, os).jobsDone + Tally(s, os).jobsFailed == s.jobsDone + s.jobsFailed + |os|
  {
    if os != [] {
      TallyCounts(s, os[..|os| - 1]);
    }
  }

  /** The outcomes of two queues one after the other are those of each queue in turn. */
  lemma OutcomesAppend(e: Engine, host: Host, certs: map<string, Certificate>, props: SignProps, q1: seq<Job>, q2: seq<Job>)
    ensures Outcomes(e, host, certs, props, q1 + q2) == Outcomes(e, host, certs, props, q1) + Outcomes(e, host, certs, props, q2)
  {
    var whole := Outcomes(e, host, certs, props, q1 + q2);
    var parts := Outcomes(e, host, certs, props, q1) + Outcomes(e, host, certs, props, q2);
    forall i | 0 <= i < |whole|
      ensures whole[i] == parts[i]
    {
      if i < |q1| {
        assert (q1 + q2)[i] == q1[i];
      } else {
        assert (q1 + q2)[i] == q2[i - |q1|];
      }
    }
  }

  /** Counting two runs of jobs one after the other is counting them together. */
  lemma {:induction false} TallyAppend(s: Stats, xs: seq<bool>, ys: seq<bool>)
    ensures Tally(s, xs + ys) == Tally(Tally(s, xs), ys)
    decreases |ys|
  {
    if ys == [] {
      assert xs + ys == xs;
    } else {
      var zs := xs + ys;
      assert zs[..|zs| - 1] == xs + ys[..|ys| - 1];
      assert zs[|zs| - 1] == ys[|ys| - 1];
      TallyAppend(s, xs, ys[..|ys| - 1]);
    }
  }

  /** The counters a GetStats call sees while Listen is on job `k`, between its two locked updates:
      the earlier jobs are tallied and job `k` is counted as failed; the confirmation that follows,
      or its absence, gives the tally that includes job `k`. */
  lemma ProvisionalFailure(s: Stats, os: seq<bool>, k: nat)
    requires k < |os|
    ensures var mid := BeginJob(Tally(s, os[..k]));
      mid.jobsDone == s.jobsDone + Successes(os[..k])
      && mid.jobsFailed == s.jobsFailed + (k - Successes(os[..k])) + 1
      && Tally(s, os[..k + 1]) == (if os[k] then ConfirmJob(mid) else mid)
  {
    TallyCounts(s, os[..k]);
    assert os[..k + 1][..k] == os[..k];
  }
}
