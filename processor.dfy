/**
 * The document-signing orchestrator of internal/processor/processor.go: the named-certificate
 * registry, the staged signing pipeline (resolve, open, optional lock / re-open / decrypt, sign,
 * write), its two engine loops (copying pages into an encrypted writer, one signature per
 * coordinate block and page) and the job accounting of the batch worker.
 *
 * The PDF engine and the PKCS#12 decoder are foreign code: every call into them is an oracle
 * (a field of `Engine` or `Host`) that answers success or failure, and every pipeline operation
 * returns the sequence of engine calls it made, so that the contracts can say which calls happen,
 * in what order, and which error comes out.
 */
module Processor {
  import opened Common

  // ---------------------------------------------------------------------------------------------
  // Opaque handles created by the foreign libraries.

  datatype Reader = Reader(id: nat)         // a *model.PdfReader
  datatype Page = Page(id: nat)             // a *model.PdfPage
  datatype Appender = Appender(id: nat)     // a *model.PdfAppender
  datatype PrivateKey = PrivateKey(id: nat) // an *rsa.PrivateKey
  datatype X509Cert = X509Cert(id: nat)     // an *x509.Certificate

  /** The key pkcs12.DecodeChain returns: an RSA key, or a key of another algorithm. */
  datatype DecodedKey = RsaKey(key: PrivateKey) | OtherKey(id: nat)

  // ---------------------------------------------------------------------------------------------
  // Data model.

  /** model.PdfColorDeviceRGB as filled from three uint8 channels. */
  datatype Rgb = Rgb(r: Byte, g: Byte, b: Byte)

  /** Signature field style: the hex colour strings as configured and the channels parsed from them
      (the float sizes are not modelled). */
  datatype SignStyle = SignStyle(
    autoSize: bool,
    font: string,
    fontColor: string,
    bgColor: string,
    borderColor: string,
    fontColorRgb: Rgb,
    bgColorRgb: Rgb,
    borderColorRgb: Rgb)

  /** One coordinate block: the pages it targets (the rectangle is floating point and not modelled). */
  datatype SignCoords = SignCoords(pages: seq<int>)

  datatype SignProps = SignProps(
    name: string,
    reason: string,
    location: string,
    annotations: seq<map<string, string>>,
    style: SignStyle,
    coords: seq<SignCoords>)

  /** A queued batch job; an unset password is the empty buffer. */
  datatype Job = Job(certName: string, inFile: string, outFile: string, password: Bytes)

  /** Job counters (the start time is not modelled). */
  datatype Stats = Stats(jobsDone: int, jobsFailed: int)

  datatype Certificate = Certificate(privKey: PrivateKey, cert: X509Cert)

  /** One annotation line shown on a signature field. */
  datatype SignatureLine = SignatureLine(desc: string, text: string)

  /** One `ap.Sign` target: the index of the coordinate block and the page number. */
  datatype SignCall = SignCall(block: nat, page: int)

  /** The user access permissions of the standard security handler (ISO 32000-1, section 7.6.3.2, Table 22). */
  datatype Permission =
    | Printing | Modify | ExtractGraphics | Annotate
    | FillForms | DisabilityExtract | RotateInsert | FullPrintQuality

  /** The permission's bit in the P entry, by its 1-based position in Table 22 of ISO 32000-1. */
  function PermissionBit(p: Permission): (bit: nat)
    ensures bit in {3, 4, 5, 6, 9, 10, 11, 12}
  {
    match p
    case Printing => 3
    case Modify => 4
    case ExtractGraphics => 5
    case Annotate => 6
    case FillForms => 9
    case DisabilityExtract => 10
    case RotateInsert => 11
    case FullPrintQuality => 12
  }

  /** 2 to the power of `n`. */
  function Pow2(n: nat): (r: nat)
    ensures r >= 1
  {
    if n == 0 then 1 else 2 * Pow2(n - 1)
  }

  /** The flag value of one permission: 2 to the power of (bit - 1). */
  function PermissionFlag(p: Permission): (flag: nat)
  {
    match p
    case Printing => 4
    case Modify => 8
    case ExtractGraphics => 16
    case Annotate => 32
    case FillForms => 256
    case DisabilityExtract => 512
    case RotateInsert => 1024
    case FullPrintQuality => 2048
  }

  /** The flags or-ed together; for distinct permissions an or of distinct bits is their sum. */
  function Flags(ps: seq<Permission>): (flags: nat)
  {
    if ps == [] then 0 else PermissionFlag(ps[0]) + Flags(ps[1..])
  }

  /** The permissions a locked document grants, in the order the source or-s them together. */
  const LockPermissions: seq<Permission> :=
    [Printing, FullPrintQuality, Modify, Annotate, FillForms, RotateInsert, ExtractGraphics, DisabilityExtract]

  // ---------------------------------------------------------------------------------------------
  // The foreign collaborators, as oracles.

  /** The answers of the PDF engine (unipdf). Per-call outcomes that may depend on earlier calls of
      the same kind receive those earlier calls as an argument. */
  datatype Engine = Engine(
    newReader: Bytes -> Result<Reader, string>,                          // model.NewPdfReader
    isEncrypted: Reader -> Result<bool, string>,                         // PdfReader.IsEncrypted
    numPages: Reader -> Result<int, string>,                             // PdfReader.GetNumPages
    getPage: (Reader, int) -> Result<Page, string>,                      // PdfReader.GetPage
    addPage: (seq<Page>, Page) -> Result<(), string>,                    // PdfWriter.AddPage, after the given pages
    write: (Bytes, Bytes, seq<Permission>, seq<Page>) -> Result<Bytes, string>, // PdfWriter.Write of an encrypted writer
    decrypt: (Reader, Bytes) -> Result<bool, string>,                    // PdfReader.Decrypt
    newAppender: Reader -> Result<Appender, string>,                     // model.NewPdfAppender
    newHandler: Certificate -> Result<(), string>,                       // sighandler.NewAdobePKCS7Detached
    initSignature: (Certificate, string, string, string) -> Result<(), string>, // PdfSignature.Initialize
    sign: (Appender, seq<SignCall>, SignCall) -> Result<(), string>,     // PdfAppender.Sign, after the given calls
    serialize: (Appender, seq<SignCall>) -> Bytes)                       // PdfAppender.Write (its error is discarded)

  /** The file system and the PKCS#12 decoder. */
  datatype Host = Host(
    readFile: string -> Result<Bytes, string>,                           // ioutil.ReadFile
    decodeChain: (Bytes, string) -> Result<(DecodedKey, X509Cert), string>, // pkcs12.DecodeChain
    open: string -> Result<Bytes, string>,                               // os.Open, read through the ReadSeeker
    writeFile: (string, Bytes) -> Result<(), string>)                    // ioutil.WriteFile

  /** One call made into the engine. */
  datatype Call =
    | NewReader(input: Bytes)
    | IsEncrypted(rd: Reader)
    | Encrypt(userPass: Bytes, ownerPass: Bytes, perms: seq<Permission>)
    | GetNumPages(rd: Reader)
    | GetPage(rd: Reader, number: int)
    | AddPage(page: Page)
    | WriteLocked
    | Decrypt(rd: Reader, password: Bytes)
    | NewAppender(rd: Reader)
    | NewHandler(cert: Certificate)
    | InitSignature(name: string, reason: string, location: string)
    | Sign(ap: Appender, target: SignCall)
    | Serialize(ap: Appender)

  /** How LoadPFX ends: a returned nil error, a returned error, or a process exit (log.Fatalf) or
      panic (the failed type assertion to *rsa.PrivateKey). */
  datatype LoadOutcome = Loaded | Failed(error: string) | DecodeFatal(error: string) | KeyNotRsa

  // ---------------------------------------------------------------------------------------------
  // The error values.

  function DuplicateName(name: string): (msg: string) { "the name '" + name + "' is already loaded" }
  function UnknownCertificate(name: string): (msg: string) { "unknown certificate '" + name + "'" }
  const ErrOpen := "error opening PDF"
  const ErrLock := "error locking PDF with password"
  const ErrReopen := "error re-opening PDF after locking"
  const ErrReread := "error re-reading PDF after locking"
  const ErrSign := "error signing PDF after locking"
  const ErrAlreadyProtected := "PDF is already password protected"

  // ---------------------------------------------------------------------------------------------
  // lockPDF, as a specification.

  /** The number of iterations of `for i := from; i <= n; i++`. */
  function Span(from: int, n: int): (count: nat)
  {
    if from <= n then n - from + 1 else 0
  }

  /** The GetPage/AddPage calls that copy `pages`, numbered from `from`, into the writer. */
  function PageCalls(rd: Reader, pages: seq<Page>, from: int): (calls: seq<Call>)
  {
    if pages == [] then [] else [GetPage(rd, from), AddPage(pages[0])] + PageCalls(rd, pages[1..], from + 1)
  }

  /** Pages `from`..`n` appended after `written`: the pages of the writer, or the first error;
      and the engine calls made. */
  function CopyPages(e: Engine, rd: Reader, from: int, n: int, written: seq<Page>): (r: (Result<seq<Page>, string>, seq<Call>))
    decreases n + 1 - from
  {
    if from > n then (Ok(written), [])
    else
      var got := e.getPage(rd, from);
      if got.Err? then (Err(got.error), [GetPage(rd, from)])
      else
        var added := e.addPage(written, got.value);
        if added.Err? then (Err(added.error), [GetPage(rd, from), AddPage(got.value)])
        else
          var rest := CopyPages(e, rd, from + 1, n, written + [got.value]);
          (rest.0, [GetPage(rd, from), AddPage(got.value)] + rest.1)
  }

  /** The calls lockPDF makes before its page loop, once the document is known to be unencrypted. */
  function LockHead(rd: Reader, password: Bytes): (calls: seq<Call>)
  {
    [IsEncrypted(rd), Encrypt(password, password, LockPermissions), GetNumPages(rd)]
  }

  /** lockPDF: the bytes of the encrypted copy, or the first error; and the engine calls made. */
  function LockSpec(e: Engine, rd: Reader, password: Bytes): (r: (Result<Bytes, string>, seq<Call>))
  {
    var encrypted := e.isEncrypted(rd);
    if encrypted.Err? then (Err(encrypted.error), [IsEncrypted(rd)])
    else if encrypted.value then (Err(ErrAlreadyProtected), [IsEncrypted(rd)])
    else
      var count := e.numPages(rd);
      if count.Err? then (Err(count.error), LockHead(rd, password))
      else
        var copied := CopyPages(e, rd, 1, count.value, []);
        if copied.0.Err? then (Err(copied.0.error), LockHead(rd, password) + copied.1)
        else
          (e.write(password, password, LockPermissions, copied.0.value),
           LockHead(rd, password) + copied.1 + [WriteLocked])
  }

  // ---------------------------------------------------------------------------------------------
  // signPDF, as a specification.

  /** The Sign targets of one coordinate block, in page order. */
  function BlockTargets(block: nat, pages: seq<int>): (ts: seq<SignCall>)
  {
    if pages == [] then [] else [SignCall(block, pages[0])] + BlockTargets(block, pages[1..])
  }

  /** Every Sign target of the coordinate blocks, block by block, blocks numbered from `base`. */
  function Targets(coords: seq<SignCoords>, base: nat): (ts: seq<SignCall>)
  {
    if coords == [] then [] else BlockTargets(base, coords[0].pages) + Targets(coords[1..], base + 1)
  }

  /** Concatenation is associative. */
  lemma ConcatAssoc<T>(a: seq<T>, b: seq<T>, c: seq<T>)
    ensures a + b + c == a + (b + c)
  {
  }

  /** The targets from block `b` on: block `b`'s, then those of the blocks after it. */
  lemma TargetsFrom(coords: seq<SignCoords>, b: nat)
    requires b < |coords|
    ensures Targets(coords[b..], b) == BlockTargets(b, coords[b].pages) + Targets(coords[b + 1..], b + 1)
  {
    assert coords[b..][1..] == coords[b + 1..];
  }

  /** The trace entries of Sign calls on the given targets. */
  function SignCalls(ap: Appender, ts: seq<SignCall>): (calls: seq<Call>)
  {
    if ts == [] then [] else SignCalls(ap, ts[..|ts| - 1]) + [Sign(ap, ts[|ts| - 1])]
  }

  /** The index of the first target, from `from` on, whose Sign call fails when every call before
      it succeeded; `|ts|` when none fails. */
  function FirstSignFailure(e: Engine, ap: Appender, ts: seq<SignCall>, from: nat): (k: nat)
    requires from <= |ts|
    ensures from <= k <= |ts|
    ensures forall i :: from <= i < k ==> e.sign(ap, ts[..i], ts[i]).Ok?
    ensures k < |ts| ==> e.sign(ap, ts[..k], ts[k]).Err?
    decreases |ts| - from
  {
    if from == |ts| then from
    else if e.sign(ap, ts[..from], ts[from]).Err? then from
    else FirstSignFailure(e, ap, ts, from + 1)
  }

  /** One step of the Sign loops: `t` is the next target after the `done` prefix of `ts`. */
  lemma NextTarget(ts: seq<SignCall>, done: seq<SignCall>, t: SignCall, b: nat, pages: seq<int>, i: nat, after: seq<SignCall>)
    requires i < |pages| && t == SignCall(b, pages[i])
    requires done + BlockTargets(b, pages[i..]) + after == ts
    ensures ts[..|done|] == done && ts[|done|] == t && ts[..|done| + 1] == done + [t]
    ensures (done + [t])[..|done|] == done
    ensures (done + [t]) + BlockTargets(b, pages[i + 1..]) + after == ts
    ensures BlockTargets(b, pages[i..]) == [t] + BlockTargets(b, pages[i + 1..])
  {
    assert pages[i..][1..] == pages[i + 1..];
    assert ts == done + [t] + (BlockTargets(b, pages[i + 1..]) + after);
  }

  /** One Sign call of the loops, at index `|done|` of the targets: it either is the first failure,
      or pushes the first failure past it. */
  lemma SignStep(e: Engine, ap: Appender, ts: seq<SignCall>, done: seq<SignCall>, t: SignCall)
    requires |done| < |ts| && ts[..|done|] == done && ts[|done|] == t && ts[..|done| + 1] == done + [t]
    requires FirstSignFailure(e, ap, ts, 0) >= |done|
    ensures e.sign(ap, done, t).Err? ==> FirstSignFailure(e, ap, ts, 0) == |done|
    ensures e.sign(ap, done, t).Ok? ==> FirstSignFailure(e, ap, ts, 0) >= |done| + 1
    ensures SignCalls(ap, done + [t]) == SignCalls(ap, done) + [Sign(ap, t)]
  {
    assert (done + [t])[..|done|] == done;
  }

  /** The Sign loops' outcome on targets `ts`: the first failure's error and the calls up to and
      including it, or no error and a call per target. */
  predicate SignOutcome(e: Engine, ap: Appender, ts: seq<SignCall>, failed: Option<string>, calls: seq<Call>)
  {
    var k := FirstSignFailure(e, ap, ts, 0);
    if k < |ts| then failed == Some(e.sign(ap, ts[..k], ts[k]).error) && calls == SignCalls(ap, ts[..k + 1])
    else failed == None && calls == SignCalls(ap, ts)
  }

  /** The calls signPDF makes before its Sign loop. */
  function SignHead(rd: Reader, cert: Certificate, pr: SignProps): (calls: seq<Call>)
  {
    [NewAppender(rd), NewHandler(cert), InitSignature(pr.name, pr.reason, pr.location)]
  }

  /** Whether signPDF gets past appender, handler and signature initialisation. */
  predicate SignatureReady(e: Engine, cert: Certificate, pr: SignProps, rd: Reader)
  {
    e.newAppender(rd).Ok? && e.newHandler(cert).Ok? && e.initSignature(cert, pr.name, pr.reason, pr.location).Ok?
  }

  /** signPDF: the appender carrying every signature, or the first error; and the engine calls made. */
  function SignSpec(e: Engine, cert: Certificate, pr: SignProps, rd: Reader): (r: (Result<Appender, string>, seq<Call>))
  {
    var ap := e.newAppender(rd);
    if ap.Err? then (Err(ap.error), [NewAppender(rd)])
    else
      var handler := e.newHandler(cert);
      if handler.Err? then (Err(handler.error), [NewAppender(rd), NewHandler(cert)])
      else
        var init := e.initSignature(cert, pr.name, pr.reason, pr.location);
        if init.Err? then (Err(init.error), SignHead(rd, cert, pr))
        else
          var ts := Targets(pr.coords, 0);
          var k := FirstSignFailure(e, ap.value, ts, 0);
          if k < |ts| then (Err(e.sign(ap.value, ts[..k], ts[k]).error), SignHead(rd, cert, pr) + SignCalls(ap.value, ts[..k + 1]))
          else (Ok(ap.value), SignHead(rd, cert, pr) + SignCalls(ap.value, ts))
  }

  /** `lines` lists the entries of map `m`, each once, in some order. */
  ghost predicate Enumerates(m: map<string, string>, lines: seq<SignatureLine>)
  {
    |lines| == |m|
    && (forall i :: 0 <= i < |lines| ==> lines[i].desc in m && m[lines[i].desc] == lines[i].text)
    && (forall i, j :: 0 <= i < j < |lines| ==> lines[i].desc != lines[j].desc)
  }

  /** `lines` lists the entries of each annotation map in turn, maps in order, each map's entries in
      some order (Go's map iteration order is unspecified). */
  ghost predicate LinesOf(anns: seq<map<string, string>>, lines: seq<SignatureLine>)
    decreases |anns|
  {
    if anns == [] then lines == []
    else
      var last := anns[|anns| - 1];
      |last| <= |lines|
      && Enumerates(last, lines[|lines| - |last|..])
      && LinesOf(anns[..|anns| - 1], lines[..|lines| - |last|])
  }

  /** Listing one more, not yet listed, entry of `m` keeps the listing faithful and free of repeats. */
  lemma ChunkSnoc(m: map<string, string>, chunk: seq<SignatureLine>, seen: set<string>, k: string)
    requires seen <= m.Keys && k in m && k !in seen
    requires forall j :: 0 <= j < |chunk| ==> chunk[j].desc in seen && m[chunk[j].desc] == chunk[j].text
    requires forall j, i :: 0 <= j < i < |chunk| ==> chunk[j].desc != chunk[i].desc
    ensures var c := chunk + [SignatureLine(k, m[k])];
      (forall j :: 0 <= j < |c| ==> c[j].desc in seen + {k} && m[c[j].desc] == c[j].text)
      && (forall j, i :: 0 <= j < i < |c| ==> c[j].desc != c[i].desc)
  {
  }

  /** The lines of one more map follow the lines of the maps before it. */
  lemma LinesOfSnoc(anns: seq<map<string, string>>, lines: seq<SignatureLine>, m: map<string, string>,
                    chunk: seq<SignatureLine>)
    requires LinesOf(anns, lines) && Enumerates(m, chunk)
    ensures LinesOf(anns + [m], lines + chunk)
  {
    var all := anns + [m];
    assert all[|all| - 1] == m && all[..|all| - 1] == anns;
    var both := lines + chunk;
    assert both[|both| - |m|..] == chunk;
    assert both[..|both| - |m|] == lines;
  }

  // ---------------------------------------------------------------------------------------------
  // ProcessDoc, as a specification.

  /** The optional lock stage of ProcessDoc: the reader to sign on, or the stage's fixed error; and
      the engine calls made. */
  function LockStage(e: Engine, rd: Reader, password: Bytes): (r: (Result<Reader, string>, seq<Call>))
  {
    if |password| == 0 then (Ok(rd), [])
    else
      var locked := LockSpec(e, rd, password);
      if locked.0.Err? then (Err(ErrLock), locked.1)
      else
        var reopened := e.newReader(locked.0.value);
        if reopened.Err? then (Err(ErrReopen), locked.1 + [NewReader(locked.0.value)])
        else
          var decrypted := e.decrypt(reopened.value, password);
          var calls := locked.1 + [NewReader(locked.0.value), Decrypt(reopened.value, password)];
          if decrypted.Err? || !decrypted.value then (Err(ErrReread), calls)
          else (Ok(reopened.value), calls)
  }

  /** ProcessDoc: the signed bytes or the error, and the engine calls made. */
  function ProcessDocSpec(e: Engine, certs: map<string, Certificate>, certName: string, pr: SignProps,
                          password: Bytes, input: Bytes): (r: (Result<Bytes, string>, seq<Call>))
  {
    if certName !in certs then (Err(UnknownCertificate(certName)), [])
    else
      var source := e.newReader(input);
      if source.Err? then (Err(ErrOpen), [NewReader(input)])
      else
        var staged := LockStage(e, source.value, password);
        if staged.0.Err? then (Err(staged.0.error), [NewReader(input)] + staged.1)
        else
          var signed := SignSpec(e, certs[certName], pr, staged.0.value);
          var calls := [NewReader(input)] + staged.1 + signed.1;
          if signed.0.Err? then (Err(ErrSign), calls)
          else (Ok(e.serialize(signed.0.value, Targets(pr.coords, 0))), calls + [Serialize(signed.0.value)])
  }

  // ---------------------------------------------------------------------------------------------
  // ProcessDoc's failures.

  /** A call of the sign stage or of the final serialisation. */
  predicate SigningCall(c: Call)
  {
    c.NewAppender? || c.NewHandler? || c.InitSignature? || c.Sign? || c.Serialize?
  }

  /** The trace signs nothing and writes no signed output. */
  predicate NoSigningCalls(calls: seq<Call>)
  {
    forall i :: 0 <= i < |calls| ==> !SigningCall(calls[i])
  }

  /** The trace writes no signed output. */
  predicate NoSerialize(calls: seq<Call>)
  {
    forall i :: 0 <= i < |calls| ==> !calls[i].Serialize?
  }

  /** Traces that sign nothing joined together sign nothing. */
  lemma NoSigningConcat(a: seq<Call>, b: seq<Call>)
    requires NoSigningCalls(a) && NoSigningCalls(b)
    ensures NoSigningCalls(a + b)
  {
    forall i | 0 <= i < |a + b|
      ensures !SigningCall((a + b)[i])
    {
      if i >= |a| {
        assert (a + b)[i] == b[i - |a|];
      }
    }
  }

  /** Copying pages signs nothing, whether or not the copy succeeds. */
  lemma {:induction false} CopyPagesSignsNothing(e: Engine, rd: Reader, from: int, n: int, written: seq<Page>)
    ensures NoSigningCalls(CopyPages(e, rd, from, n, written).1)
    decreases n + 1 - from
  {
    if from <= n {
      var g := e.getPage(rd, from);
      if g.Ok? && e.addPage(written, g.value).Ok? {
        CopyPagesSignsNothing(e, rd, from + 1, n, written + [g.value]);
        NoSigningConcat([GetPage(rd, from), AddPage(g.value)], CopyPages(e, rd, from + 1, n, written + [g.value]).1);
      }
    }
  }

  /** lockPDF signs nothing, whether or not it succeeds. */
  lemma LockSpecSignsNothing(e: Engine, rd: Reader, password: Bytes)
    ensures NoSigningCalls(LockSpec(e, rd, password).1)
  {
    if e.isEncrypted(rd) == Ok(false) && e.numPages(rd).Ok? {
      var copied := CopyPages(e, rd, 1, e.numPages(rd).value, []);
      CopyPagesSignsNothing(e, rd, 1, e.numPages(rd).value, []);
      NoSigningConcat(LockHead(rd, password), copied.1);
      if copied.0.Ok? {
        NoSigningConcat(LockHead(rd, password) + copied.1, [WriteLocked]);
      }
    }
  }

  /** The Sign entries of a trace are the targets, in order. */
  lemma {:induction false} SignCallsAt(ap: Appender, ts: seq<SignCall>)
    ensures |SignCalls(ap, ts)| == |ts|
    ensures forall i :: 0 <= i < |ts| ==> SignCalls(ap, ts)[i] == Sign(ap, ts[i])
  {
    if ts != [] {
      SignCallsAt(ap, ts[..|ts| - 1]);
    }
  }

  /** signPDF never serialises: only ProcessDoc writes the signed output. */
  lemma SignSpecNoSerialize(e: Engine, cert: Certificate, pr: SignProps, rd: Reader)
    ensures NoSerialize(SignSpec(e, cert, pr, rd).1)
  {
    var calls := SignSpec(e, cert, pr, rd).1;
    if SignatureReady(e, cert, pr, rd) {
      var ap := e.newAppender(rd).value;
      var ts := Targets(pr.coords, 0);
      var k := FirstSignFailure(e, ap, ts, 0);
      var signed := if k < |ts| then ts[..k + 1] else ts;
      SignCallsAt(ap, signed);
      assert calls == SignHead(rd, cert, pr) + SignCalls(ap, signed);
      forall i | 3 <= i < |calls|
        ensures !calls[i].Serialize?
      {
        assert calls[i] == SignCalls(ap, signed)[i - 3];
      }
    }
  }

  /** The fixed error strings ProcessDoc returns; the underlying error is only logged. */
  function ProcessDocErrors(certName: string): (errors: set<string>)
  {
    {UnknownCertificate(certName), ErrOpen, ErrLock, ErrReopen, ErrReread, ErrSign}
  }

  /** How the lock stage of ProcessDoc, on source reader `rd`, can fail: lockPDF's error, the
      re-open's, or a failed or refused decryption, each giving its own fixed error, after the
      calls up to the failing one and before any signing call. */
  predicate LockErrors(e: Engine, rd: Reader, password: Bytes, input: Bytes, r: Result<Bytes, string>, calls: seq<Call>)
  {
    var locked := LockSpec(e, rd, password);
    (locked.0.Err? ==>
       r == Err(ErrLock) && calls == [NewReader(input)] + locked.1 && NoSigningCalls(calls))
    && (locked.0.Ok? && e.newReader(locked.0.value).Err? ==>
          r == Err(ErrReopen) && calls == [NewReader(input)] + locked.1 + [NewReader(locked.0.value)]
          && NoSigningCalls(calls))
    && (locked.0.Ok? && e.newReader(locked.0.value).Ok?
        && e.decrypt(e.newReader(locked.0.value).value, password) != Ok(true) ==>
          r == Err(ErrReread)
          && calls == [NewReader(input)] + locked.1
               + [NewReader(locked.0.value), Decrypt(e.newReader(locked.0.value).value, password)]
          && NoSigningCalls(calls))
  }

  /** Every way ProcessDoc can fail, stage by stage, with the fixed error that stage returns and the
      calls made; a failure never writes signed output, and only these errors are returned. */
  predicate StageErrors(e: Engine, certs: map<string, Certificate>, certName: string, pr: SignProps,
                        password: Bytes, input: Bytes, r: Result<Bytes, string>, calls: seq<Call>)
  {
    (r.Err? ==> r.error in ProcessDocErrors(certName) && NoSerialize(calls))
    && (certName !in certs ==> r == Err(UnknownCertificate(certName)) && calls == [])
    && (certName in certs && e.newReader(input).Err? ==> r == Err(ErrOpen) && calls == [NewReader(input)])
    && (certName in certs && e.newReader(input).Ok? && |password| > 0 ==>
          LockErrors(e, e.newReader(input).value, password, input, r, calls))
    && (certName in certs && e.newReader(input).Ok? && LockStage(e, e.newReader(input).value, password).0.Ok?
        && SignSpec(e, certs[certName], pr, LockStage(e, e.newReader(input).value, password).0.value).0.Err? ==>
          r == Err(ErrSign))
  }

  /** The lock stage signs nothing, whether or not it succeeds. */
  lemma LockStageSignsNothing(e: Engine, rd: Reader, password: Bytes)
    ensures NoSigningCalls(LockStage(e, rd, password).1)
  {
    if |password| > 0 {
      var locked := LockSpec(e, rd, password);
      LockSpecSignsNothing(e, rd, password);
      if locked.0.Ok? {
        NoSigningConcat(locked.1, [NewReader(locked.0.value)]);
        if e.newReader(locked.0.value).Ok? {
          NoSigningConcat(locked.1, [NewReader(locked.0.value), Decrypt(e.newReader(locked.0.value).value, password)]);
        }
      }
    }
  }

  /** A trace that signs nothing, then one that does not serialise, does not serialise. */
  lemma NoSerializeAfter(a: seq<Call>, b: seq<Call>)
    requires NoSigningCalls(a) && NoSerialize(b)
    ensures NoSerialize(a + b)
  {
    forall i | 0 <= i < |a + b|
      ensures !(a + b)[i].Serialize?
    {
      if i < |a| {
        assert (a + b)[i] == a[i] && !SigningCall(a[i]);
      } else {
        assert (a + b)[i] == b[i - |a|];
      }
    }
  }

  /** The lock stage's failures, as ProcessDoc reports them. */
  lemma LockStageFailures(e: Engine, rd: Reader, password: Bytes, input: Bytes)
    requires |password| > 0
    ensures var staged := LockStage(e, rd, password);
      staged.0.Err? ==> LockErrors(e, rd, password, input, Err(staged.0.error), [NewReader(input)] + staged.1)
  {
    var staged := LockStage(e, rd, password);
    LockStageSignsNothing(e, rd, password);
    NoSigningConcat([NewReader(input)], staged.1);
    var locked := LockSpec(e, rd, password);
    if locked.0.Ok? {
      var reopen := [NewReader(locked.0.value)];
      assert [NewReader(input)] + (locked.1 + reopen) == [NewReader(input)] + locked.1 + reopen;
      if e.newReader(locked.0.value).Ok? {
        var decrypt := [NewReader(locked.0.value), Decrypt(e.newReader(locked.0.value).value, password)];
        assert [NewReader(input)] + (locked.1 + decrypt) == [NewReader(input)] + locked.1 + decrypt;
      }
    }
  }

  /** ProcessDoc fails in exactly the ways StageErrors lists. */
  lemma ProcessDocFailures(e: Engine, certs: map<string, Certificate>, certName: string, pr: SignProps,
                           password: Bytes, input: Bytes)
    ensures var (r, calls) := ProcessDocSpec(e, certs, certName, pr, password, input);
      StageErrors(e, certs, certName, pr, password, input, r, calls)
  {
    if certName in certs && e.newReader(input).Ok? {
      var rd := e.newReader(input).value;
      var staged := LockStage(e, rd, password);
      LockStageSignsNothing(e, rd, password);
      NoSigningConcat([NewReader(input)], staged.1);
      if |password| > 0 {
        LockStageFailures(e, rd, password, input);
      }
      if staged.0.Ok? {
        var signed := SignSpec(e, certs[certName], pr, staged.0.value);
        SignSpecNoSerialize(e, certs[certName], pr, staged.0.value);
        NoSerializeAfter([NewReader(input)] + staged.1, signed.1);
      }
    }
  }

  // ---------------------------------------------------------------------------------------------
  // Listen's accounting, as a specification.

  /** The provisional failure counted before a job is tried. */
  function BeginJob(s: Stats): (t: Stats) { s.(jobsFailed := s.jobsFailed + 1) }

  /** The reconciliation of a provisional failure into a success. */
  function ConfirmJob(s: Stats): (t: Stats) { Stats(s.jobsDone + 1, s.jobsFailed - 1) }

  /** The counters after jobs with the given outcomes (true: success), each begun then, on success,
      confirmed. */
  function Tally(s: Stats, outcomes: seq<bool>): (t: Stats)
  {
    if outcomes == [] then s
    else
      var before := BeginJob(Tally(s, outcomes[..|outcomes| - 1]));
      if outcomes[|outcomes| - 1] then ConfirmJob(before) else before
  }

  /** Whether Listen's full success path (open, ProcessDoc, WriteFile) runs for job `j`. */
  function JobSucceeds(e: Engine, host: Host, certs: map<string, Certificate>, props: SignProps, j: Job): (ok: bool)
  {
    host.open(j.inFile).Ok?
    && var out := ProcessDocSpec(e, certs, j.certName, props, j.password, host.open(j.inFile).value).0;
       out.Ok? && host.writeFile(j.outFile, out.value).Ok?
  }

  /** Whether each queued job succeeds, in queue order. */
  function Outcomes(e: Engine, host: Host, certs: map<string, Certificate>, props: SignProps, q: seq<Job>): (os: seq<bool>)
  {
    seq(|q|, i requires 0 <= i < |q| => JobSucceeds(e, host, certs, props, q[i]))
  }

  // ---------------------------------------------------------------------------------------------
  // The processor.

  class Processor {
    /** The default signature properties every batch job uses. */
    const props: SignProps
    /** The certificates loaded so far, by name. */
    var certs: map<string, Certificate>
    var stats: Stats

    constructor (def: SignProps)
      ensures props == def && certs == map[] && stats == Stats(0, 0)
    {
      props := def;
      certs := map[];
      stats := Stats(0, 0);
    }

    /** LoadPFX: registers the certificate of the archive at `path` under a new `name`. */
    method LoadPfx(host: Host, name: string, path: string, password: string) returns (outcome: LoadOutcome)
      modifies this`certs
      ensures name in old(certs) ==> outcome == Failed(DuplicateName(name))
      ensures name !in old(certs) && host.readFile(path).Err? ==> outcome == Failed(host.readFile(path).error)
      ensures name !in old(certs) && host.readFile(path).Ok? ==>
                var decoded := host.decodeChain(host.readFile(path).value, password);
                if decoded.Err? then outcome == DecodeFatal(decoded.error)
                else if decoded.value.0.OtherKey? then outcome == KeyNotRsa
                else outcome == Loaded && certs == old(certs)[name := Certificate(decoded.value.0.key, decoded.value.1)]
      ensures outcome != Loaded ==> certs == old(certs)
      ensures forall n :: n != name ==> (n in certs <==> n in old(certs)) && (n in certs ==> certs[n] == old(certs)[n])
    {
      if name in certs {
        return Failed(DuplicateName(name));
      }
      var data := host.readFile(path);
      if data.Err? {
        return Failed(data.error);
      }
      var decoded := host.decodeChain(data.value, password);
      if decoded.Err? {
        return DecodeFatal(decoded.error);
      }
      var (key, cert) := decoded.value;
      if key.OtherKey? {
        return KeyNotRsa;
      }
      certs := certs[name := Certificate(key.key, cert)];
      outcome := Loaded;
    }

    /** lockPDF: an encrypted copy of the document, every user permission granted. */
    method LockPdf(e: Engine, rd: Reader, password: Bytes) returns (r: Result<Bytes, string>, calls: seq<Call>)
      ensures (r, calls) == LockSpec(e, rd, password)
    {
      calls := [IsEncrypted(rd)];
      var encrypted := e.isEncrypted(rd);
      if encrypted.Err? {
        return Err(encrypted.error), calls;
      }
      if encrypted.value {
        return Err(ErrAlreadyProtected), calls;
      }
      calls := calls + [Encrypt(password, password, LockPermissions)];
      calls := calls + [GetNumPages(rd)];
      assert calls == LockHead(rd, password);
      var count := e.numPages(rd);
      if count.Err? {
        return Err(count.error), calls;
      }
      var n := count.value;
      ghost var whole := CopyPages(e, rd, 1, n, []);
      var pageCalls: seq<Call> := [];
      var written: seq<Page> := [];
      var i := 1;
      while i <= n
        invariant 1 <= i && (1 <= n ==> i <= n + 1)
        invariant whole.0 == CopyPages(e, rd, i, n, written).0
        invariant whole.1 == pageCalls + CopyPages(e, rd, i, n, written).1
        decreases n + 1 - i
      {
        var page := e.getPage(rd, i);
        if page.Err? {
          return Err(page.error), calls + (pageCalls + [GetPage(rd, i)]);
        }
        var added := e.addPage(written, page.value);
        if added.Err? {
          return Err(added.error), calls + (pageCalls + [GetPage(rd, i), AddPage(page.value)]);
        }
        ghost var rest := CopyPages(e, rd, i + 1, n, written + [page.value]);
        assert pageCalls + ([GetPage(rd, i), AddPage(page.value)] + rest.1)
            == (pageCalls + [GetPage(rd, i), AddPage(page.value)]) + rest.1;
        pageCalls := pageCalls + [GetPage(rd, i), AddPage(page.value)];
        written := written + [page.value];
        i := i + 1;
      }
      assert whole.1 == pageCalls;
      calls := calls + pageCalls + [WriteLocked];
      r := e.write(password, password, LockPermissions, written);
    }

    /** The annotation lines of signPDF: every entry of every annotation map, maps in order. */
    method AnnotationLines(anns: seq<map<string, string>>) returns (lines: seq<SignatureLine>)
      ensures LinesOf(anns, lines)
    {
      lines := [];
      var i := 0;
      while i < |anns|
        invariant 0 <= i <= |anns|
        invariant LinesOf(anns[..i], lines)
      {
        var chunk := EntryLines(anns[i]);
        LinesOfSnoc(anns[..i], lines, anns[i], chunk);
        assert anns[..i + 1] == anns[..i] + [anns[i]];
        lines := lines + chunk;
        i := i + 1;
      }
      assert anns[..i] == anns;
    }

    /** The lines of one annotation map: each entry once, in the map's iteration order. */
    method EntryLines(m: map<string, string>) returns (chunk: seq<SignatureLine>)
      ensures Enumerates(m, chunk)
    {
      chunk := [];
      var rest := m.Keys;
      ghost var seen: set<string> := {};
      while rest != {}
        invariant seen + rest == m.Keys && seen !! rest
        invariant |chunk| + |rest| == |m.Keys|
        invariant forall j :: 0 <= j < |chunk| ==> chunk[j].desc in seen && m[chunk[j].desc] == chunk[j].text
        invariant forall j, k :: 0 <= j < k < |chunk| ==> chunk[j].desc != chunk[k].desc
        decreases rest
      {
        var k :| k in rest;
        ChunkSnoc(m, chunk, seen, k);
        chunk := chunk + [SignatureLine(k, m[k])];
        rest := rest - {k};
        seen := seen + {k};
      }
      assert |m.Keys| == |m|;
    }

    /** signPDF: one Sign call per coordinate block and page, stopping at the first failure. */
    method SignPdf(e: Engine, cert: Certificate, pr: SignProps, rd: Reader)
      returns (r: Result<Appender, string>, calls: seq<Call>, lines: seq<SignatureLine>)
      ensures (r, calls) == SignSpec(e, cert, pr, rd)
      ensures SignatureReady(e, cert, pr, rd) ==> LinesOf(pr.annotations, lines)
      ensures !SignatureReady(e, cert, pr, rd) ==> lines == []
    {
      lines := [];
      calls := [NewAppender(rd)];
      var created := e.newAppender(rd);
      if created.Err? {
        return Err(created.error), calls, lines;
      }
      var ap := created.value;
      calls := calls + [NewHandler(cert)];
      assert calls == [NewAppender(rd), NewHandler(cert)];
      var handler := e.newHandler(cert);
      if handler.Err? {
        return Err(handler.error), calls, lines;
      }
      calls := calls + [InitSignature(pr.name, pr.reason, pr.location)];
      assert calls == SignHead(rd, cert, pr);
      var init := e.initSignature(cert, pr.name, pr.reason, pr.location);
      if init.Err? {
        return Err(init.error), calls, lines;
      }
      lines := AnnotationLines(pr.annotations);
      var failed, signCalls := SignBlocks(e, ap, pr.coords);
      calls := calls + signCalls;
      if failed.Some? {
        return Err(failed.value), calls, lines;
      }
      r := Ok(ap);
    }

    /** The Sign loops of signPDF: blocks in order, pages in order within a block, stopping at the
        first failure, whose error it returns. */
    method SignBlocks(e: Engine, ap: Appender, coords: seq<SignCoords>) returns (failed: Option<string>, calls: seq<Call>)
      ensures SignOutcome(e, ap, Targets(coords, 0), failed, calls)
    {
      ghost var ts := Targets(coords, 0);
      calls := [];
      var done: seq<SignCall> := [];
      var b := 0;
      while b < |coords|
        invariant 0 <= b <= |coords|
        invariant done + Targets(coords[b..], b) == ts
        invariant FirstSignFailure(e, ap, ts, 0) >= |done|
        invariant calls == SignCalls(ap, done)
      {
        var block := BlockTargets(b, coords[b].pages);
        ghost var after := Targets(coords[b + 1..], b + 1);
        TargetsFrom(coords, b);
        ConcatAssoc(done, block, after);
        failed, done, calls := SignBlock(e, ap, b, coords[b].pages, ts, done, after, calls);
        if failed.Some? {
          return;
        }
        b := b + 1;
      }
      assert coords[b..] == [];
      assert done == ts;
      assert FirstSignFailure(e, ap, ts, 0) == |ts|;
      failed := None;
    }

    /** The inner Sign loop of signPDF: the pages of block `b`, in order, after the `before` targets. */
    method SignBlock(e: Engine, ap: Appender, b: nat, pages: seq<int>, ghost ts: seq<SignCall>,
                     before: seq<SignCall>, ghost after: seq<SignCall>, calls0: seq<Call>)
      returns (failed: Option<string>, done: seq<SignCall>, calls: seq<Call>)
      requires before + BlockTargets(b, pages) + after == ts
      requires FirstSignFailure(e, ap, ts, 0) >= |before|
      requires calls0 == SignCalls(ap, before)
      ensures failed.Some? ==> SignOutcome(e, ap, ts, failed, calls)
      ensures failed.None? ==>
        done == before + BlockTargets(b, pages) && FirstSignFailure(e, ap, ts, 0) >= |done| && calls == SignCalls(ap, done)
    {
      done, calls := before, calls0;
      var i := 0;
      while i < |pages|
        invariant 0 <= i <= |pages|
        invariant done + BlockTargets(b, pages[i..]) + after == ts
        invariant done + BlockTargets(b, pages[i..]) == before + BlockTargets(b, pages)
        invariant FirstSignFailure(e, ap, ts, 0) >= |done|
        invariant calls == SignCalls(ap, done)
      {
        var t := SignCall(b, pages[i]);
        NextTarget(ts, done, t, b, pages, i, after);
        var signed := e.sign(ap, done, t);
        SignStep(e, ap, ts, done, t);
        calls := calls + [Sign(ap, t)];
        if signed.Err? {
          return Some(signed.error), done, calls;
        }
        done := done + [t];
        i := i + 1;
      }
      assert pages[i..] == [];
      failed := None;
    }

    /** ProcessDoc: resolve, open, optionally lock / re-open / decrypt, sign, write. */
    method ProcessDoc(e: Engine, certName: string, pr: SignProps, password: Bytes, input: Bytes)
      returns (r: Result<Bytes, string>, calls: seq<Call>)
      ensures (r, calls) == ProcessDocSpec(e, certs, certName, pr, password, input)
      ensures certName !in certs ==> r == Err(UnknownCertificate(certName)) && calls == []
      ensures StageErrors(e, certs, certName, pr, password, input, r, calls)
    {
      ProcessDocFailures(e, certs, certName, pr, password, input);
      if certName !in certs {
        return Err(UnknownCertificate(certName)), [];
      }
      var cert := certs[certName];
      calls := [NewReader(input)];
      var source := e.newReader(input);
      if source.Err? {
        return Err(ErrOpen), calls;
      }
      var rd := source.value;
      if |password| > 0 {
        var locked, lockCalls := LockPdf(e, rd, password);
        calls := calls + lockCalls;
        if locked.Err? {
          return Err(ErrLock), calls;
        }
        calls := calls + [NewReader(locked.value)];
        assert calls == [NewReader(input)] + (lockCalls + [NewReader(locked.value)]);
        var reopened := e.newReader(locked.value);
        if reopened.Err? {
          return Err(ErrReopen), calls;
        }
        calls := calls + [Decrypt(reopened.value, password)];
        assert calls == [NewReader(input)] + (lockCalls + [NewReader(locked.value), Decrypt(reopened.value, password)]);
        var decrypted := e.decrypt(reopened.value, password);
        if decrypted.Err? || !decrypted.value {
          return Err(ErrReread), calls;
        }
        rd := reopened.value;
      }
      assert calls == [NewReader(input)] + LockStage(e, source.value, password).1;
      assert rd == LockStage(e, source.value, password).0.value;
      var signed, signCalls, _ := SignPdf(e, cert, pr, rd);
      calls := calls + signCalls;
      if signed.Err? {
        return Err(ErrSign), calls;
      }
      calls := calls + [Serialize(signed.value)];
      r := Ok(e.serialize(signed.value, Targets(pr.coords, 0)));
    }

    /** Listen: the batch worker loop over the queued jobs, with its failure-first accounting. */
    method Listen(e: Engine, host: Host, q: seq<Job>)
      modifies this`stats
      ensures stats == Tally(old(stats), Outcomes(e, host, certs, props, q))
    {
      ghost var outcomes := Outcomes(e, host, certs, props, q);
      var i := 0;
      while i < |q|
        invariant 0 <= i <= |q|
        invariant stats == Tally(old(stats), outcomes[..i])
      {
        assert outcomes[..i + 1][..i] == outcomes[..i];
        var j := q[i];
        stats := BeginJob(stats);
        i := i + 1;
        var file := host.open(j.inFile);
        if file.Err? {
          continue;
        }
        var out, _ := ProcessDoc(e, j.certName, props, j.password, file.value);
        if out.Err? {
          continue;
        }
        var written := host.writeFile(j.outFile, out.value);
        if written.Err? {
          continue;
        }
        stats := ConfirmJob(stats);
      }
      assert outcomes[..i] == outcomes;
    }

    /** GetStats: a snapshot of the counters. */
    method GetStats() returns (s: Stats)
      ensures s == stats
    {
      s := stats;
    }

    /** GetProps: the default signature properties. */
    method GetProps() returns (pr: SignProps)
      ensures pr == props
    {
      pr := props;
    }
  }
}
