/** The verifier component for SNP: choosing certificates, and what an accepted report stands for. */
module Snp {
  import opened Common
  import opened Json
  import Base64

  /** A parsed certificate. */
  type Cert = Bytes

  type Bytes64 = b: Bytes | |b| == 64 witness seq(64, _ => 0)
  type Bytes32 = b: Bytes | |b| == 32 witness seq(32, _ => 0)

  datatype CertType = ARK | ASK | VCEK | VLEK | OtherCert

  datatype CertTableEntry = CertTableEntry(kind: CertType, data: Bytes)

  datatype TcbVersion = TcbVersion(microcode: byte, snp: byte, tee: byte, bootloader: byte, fmc: Option<byte>)

  datatype GuestPolicy = GuestPolicy(
    abiMajor: byte, abiMinor: byte, smtAllowed: bool, migrateMa: bool, debugAllowed: bool, singleSocket: bool)

  datatype Report = Report(
    version: nat, family: Option<byte>, model: Option<byte>, policy: GuestPolicy,
    tsmeEnabled: bool, smtEnabled: bool, vmpl: nat, reportedTcb: TcbVersion,
    measurement: Bytes, reportData: Bytes64, hostData: Bytes32, chipId: Bytes64)

  datatype Evidence = Evidence(report: Report, certChain: Option<seq<CertTableEntry>>)

  datatype Generation = Milan | Genoa | Turin

  datatype Extension = UcodeSpl | SnpSpl | TeeSpl | LoaderSpl | FmcSpl

  datatype VendorCertificates = VendorCertificates(ask: Cert, ark: Cert, asvk: Cert)

  /** Certificates, signatures and the key distribution service of the vendor. */
  datatype Kit = Kit(
    vendor: Generation -> VendorCertificates,
    parse: Bytes -> Result<Cert>,
    signs: (Cert, Cert) -> bool,
    signsReport: (Cert, Report) -> bool,
    fetch: (Report, Generation) -> Result<Bytes>,
    commonName: Cert -> Result<string>,
    hardwareId: Cert -> Result<Bytes>,
    level: (Cert, Extension) -> Result<byte>)

  function ProcessorGeneration(report: Report): Result<Generation> {
    if report.family.None? || report.model.None? then Err
    else
      var model := report.model.value;
      if report.family.value == 0x19 then
        if model <= 0xF then Ok(Milan)
        else if 0x10 <= model <= 0x1F || 0xA0 <= model < 0xAF then Ok(Genoa)
        else Err
      else if report.family.value == 0x1A && model <= 0x11 then Ok(Turin)
      else Err
  }

  // ---- The certificate table ----

  predicate IsVek(e: CertTableEntry) {
    e.kind.VCEK? || e.kind.VLEK?
  }

  /** The position of the first endorsement key of either kind. */
  function FirstVek(table: seq<CertTableEntry>): (r: Option<nat>)
    ensures r.Some? ==> r.value < |table| && IsVek(table[r.value])
    ensures forall j :: 0 <= j < |table| && (r.Some? ==> j < r.value) ==> !IsVek(table[j])
  {
    if table == [] then None
    else
      var n := |table| - 1;
      var before := FirstVek(table[..n]);
      assert forall j :: 0 <= j < n ==> table[j] == table[..n][j];
      if before.Some? then before else if IsVek(table[n]) then Some(n) else None
  }

  /** The position of the last entry of a kind. */
  function LastOf(table: seq<CertTableEntry>, kind: CertType): (r: Option<nat>)
    ensures r.Some? ==> r.value < |table| && table[r.value].kind == kind
    ensures forall j :: 0 <= j < |table| && (r.Some? ==> r.value < j) ==> table[j].kind != kind
  {
    if table == [] then None
    else
      var n := |table| - 1;
      assert forall j :: 0 <= j < n ==> table[j] == table[..n][j];
      if table[n].kind == kind then Some(n) else LastOf(table[..n], kind)
  }

  /** What the table demands of an entry: supplied roots must be signed by the provisioned one. Of the
      endorsement keys only the first is looked at. */
  predicate EntryOk(kit: Kit, provisioned: Cert, table: seq<CertTableEntry>, i: nat)
    requires i < |table|
  {
    match table[i].kind
    case ARK => kit.parse(table[i].data).Ok? && kit.signs(provisioned, kit.parse(table[i].data).value)
    case ASK => kit.parse(table[i].data).Ok?
    case VCEK => FirstVek(table) == Some(i) ==> kit.parse(table[i].data).Ok?
    case VLEK => FirstVek(table) == Some(i) ==> kit.parse(table[i].data).Ok?
    case OtherCert => true
  }

  predicate TableOk(kit: Kit, provisioned: Cert, table: seq<CertTableEntry>) {
    forall i :: 0 <= i < |table| ==> EntryOk(kit, provisioned, table, i)
  }

  function CertOf(kit: Kit, e: CertTableEntry): Option<Cert> {
    match kit.parse(e.data)
    case Ok(cert) => Some(cert)
    case Err => None
  }

  /** The parsed certificate at a position. */
  function CertAt(kit: Kit, table: seq<CertTableEntry>, i: Option<nat>): Option<Cert>
    requires i.Some? ==> i.value < |table|
  {
    if i.Some? then CertOf(kit, table[i.value]) else None
  }

  datatype Selection = Selection(ark: Option<Cert>, ask: Option<Cert>, vek: Option<Cert>, vlek: bool)

  /** The last root and intermediate, and the first endorsement key with its kind. */
  function Selected(kit: Kit, table: seq<CertTableEntry>): Selection {
    Selection(CertAt(kit, table, LastOf(table, ARK)), CertAt(kit, table, LastOf(table, ASK)),
              CertAt(kit, table, FirstVek(table)),
              FirstVek(table).Some? && table[FirstVek(table).value].kind.VLEK?)
  }

  function Taken(kit: Kit, was: Selection, e: CertTableEntry): Selection {
    match e.kind
    case ARK => was.(ark := CertOf(kit, e))
    case ASK => was.(ask := CertOf(kit, e))
    case VCEK => if was.vek.Some? then was else was.(vek := CertOf(kit, e))
    case VLEK => if was.vek.Some? then was else was.(vek := CertOf(kit, e), vlek := true)
    case OtherCert => was
  }

  predicate NextOk(kit: Kit, provisioned: Cert, was: Selection, e: CertTableEntry) {
    match e.kind
    case ARK => kit.parse(e.data).Ok? && kit.signs(provisioned, kit.parse(e.data).value)
    case ASK => kit.parse(e.data).Ok?
    case OtherCert => true
    case _ => was.vek.None? ==> kit.parse(e.data).Ok?
  }

  /** One pass over the table. */
  method SelectCertificates(kit: Kit, provisioned: Cert, table: seq<CertTableEntry>) returns (r: Result<Selection>)
    ensures r.Ok? <==> TableOk(kit, provisioned, table)
    ensures r.Ok? ==> r.value == Selected(kit, table)
  {
    var ark: Option<Cert>, ask: Option<Cert>, vek: Option<Cert>, vlek := None, None, None, false;
    for i := 0 to |table|
      invariant TableOk(kit, provisioned, table[..i])
      invariant Selection(ark, ask, vek, vlek) == Selected(kit, table[..i])
    {
      var cert := table[i];
      SelectedStep(kit, provisioned, table, i);
      match cert.kind {
        case ARK =>
          var parsed :- kit.parse(cert.data);
          ark := Some(parsed);
          if !kit.signs(provisioned, parsed) { return Err; }
        case ASK =>
          var parsed :- kit.parse(cert.data);
          ask := Some(parsed);
        case VCEK =>
          if vek.None? {
            var parsed :- kit.parse(cert.data);
            vek := Some(parsed);
          }
        case VLEK =>
          if vek.None? {
            vlek := true;
            var parsed :- kit.parse(cert.data);
            vek := Some(parsed);
          }
        case OtherCert =>
      }
    }
    assert table[..|table|] == table;
    return Ok(Selection(ark, ask, vek, vlek));
  }

  lemma {:induction false} FirstVekOfPrefix(table: seq<CertTableEntry>, i: nat)
    requires i <= |table|
    ensures FirstVek(table[..i]) == var f := FirstVek(table); if f.Some? && f.value < i then f else None
    decreases |table|
  {
    if i == |table| {
      assert table[..i] == table;
    } else {
      var n := |table| - 1;
      assert table[..n][..i] == table[..i];
      FirstVekOfPrefix(table[..n], i);
    }
  }

  /** An entry asks the same of a prefix that holds it as of the whole table. */
  lemma EntryMatters(kit: Kit, provisioned: Cert, table: seq<CertTableEntry>, i: nat)
    requires i < |table|
    ensures EntryOk(kit, provisioned, table[..i + 1], i) <==> EntryOk(kit, provisioned, table, i)
  {
    FirstVekOfPrefix(table, i + 1);
  }

  /** A table that is in order so far has a key exactly if it has an entry for one. */
  lemma KeySeen(kit: Kit, provisioned: Cert, table: seq<CertTableEntry>)
    requires TableOk(kit, provisioned, table)
    ensures Selected(kit, table).vek.Some? <==> FirstVek(table).Some?
  {
    if FirstVek(table).Some? {
      assert EntryOk(kit, provisioned, table, FirstVek(table).value);
    }
  }

  lemma TableStep(kit: Kit, provisioned: Cert, table: seq<CertTableEntry>, i: nat)
    requires i < |table| && TableOk(kit, provisioned, table[..i])
    ensures TableOk(kit, provisioned, table[..i + 1]) <==> EntryOk(kit, provisioned, table, i)
  {
    var before, now := table[..i], table[..i + 1];
    EntryMatters(kit, provisioned, table, i);
    forall j | 0 <= j < i
      ensures EntryOk(kit, provisioned, now, j)
    {
      assert before[..j + 1] == now[..j + 1];
      assert EntryOk(kit, provisioned, before, j);
      EntryMatters(kit, provisioned, before, j);
      EntryMatters(kit, provisioned, now, j);
    }
  }

  lemma SelectedStep(kit: Kit, provisioned: Cert, table: seq<CertTableEntry>, i: nat)
    requires i < |table| && TableOk(kit, provisioned, table[..i])
    ensures EntryOk(kit, provisioned, table, i) <==> NextOk(kit, provisioned, Selected(kit, table[..i]), table[i])
    ensures TableOk(kit, provisioned, table[..i + 1]) <==> EntryOk(kit, provisioned, table, i)
    ensures EntryOk(kit, provisioned, table, i) ==>
      Selected(kit, table[..i + 1]) == Taken(kit, Selected(kit, table[..i]), table[i])
  {
    assert table[..i + 1][..i] == table[..i];
    KeySeen(kit, provisioned, table[..i]);
    EntryMatters(kit, provisioned, table, i);
    TableStep(kit, provisioned, table, i);
  }

  // ---- The endorsed key ----

  /** The key distribution service needs a chip id, and for Turin an FMC level. */
  function FetchVcek(kit: Kit, report: Report, generation: Generation): Result<Bytes> {
    if forall i :: 0 <= i < 64 ==> report.chipId[i] == 0 then Err
    else if generation.Turin? && report.reportedTcb.fmc.None? then Err
    else kit.fetch(report, generation)
  }

  predicate ChainVerifies(kit: Kit, ark: Cert, ask: Cert, vek: Cert) {
    kit.signs(ark, ark) && kit.signs(ark, ask) && kit.signs(ask, vek)
  }

  /** The key a report must be signed with, if its chain verifies. */
  function EndorsedKey(kit: Kit, ev: Evidence, generation: Generation): Option<Cert> {
    var vendor := kit.vendor(generation);
    match ev.certChain
    case Some(table) =>
      var s := Selected(kit, table);
      if !TableOk(kit, vendor.ark, table) || s.vek.None? then None
      else
        var ark := if s.ark.Some? then s.ark.value else vendor.ark;
        var ask := if s.ask.Some? then s.ask.value else if s.vlek then vendor.asvk else vendor.ask;
        if ChainVerifies(kit, ark, ask, s.vek.value) then s.vek else None
    case None =>
      match FetchVcek(kit, ev.report, generation)
      case Err => None
      case Ok(der) =>
        if kit.parse(der).Ok? && ChainVerifies(kit, vendor.ark, vendor.ask, kit.parse(der).value)
        then Some(kit.parse(der).value) else None
  }

  // ---- The levels in the key ----

  /** The key was issued for the levels the report claims, and a VCEK for the chip it came from. */
  predicate TcbMatches(kit: Kit, report: Report, vek: Cert, generation: Generation) {
    && kit.commonName(vek).Ok?
    && (kit.commonName(vek).value == "VCEK" ==> kit.hardwareId(vek) == Ok(report.chipId))
    && kit.level(vek, UcodeSpl) == Ok(report.reportedTcb.microcode)
    && kit.level(vek, SnpSpl) == Ok(report.reportedTcb.snp)
    && kit.level(vek, TeeSpl) == Ok(report.reportedTcb.tee)
    && kit.level(vek, LoaderSpl) == Ok(report.reportedTcb.bootloader)
    && (generation.Turin? ==> report.reportedTcb.fmc.Some?
                              && kit.level(vek, FmcSpl) == Ok(report.reportedTcb.fmc.value))
  }

  method VerifyReportTcb(kit: Kit, report: Report, vek: Cert, generation: Generation) returns (r: Result<()>)
    ensures r.Ok? <==> TcbMatches(kit, report, vek, generation)
  {
    var name :- kit.commonName(vek);
    if name == "VCEK" {
      var id :- kit.hardwareId(vek);
      if id != report.chipId { return Err; }
    }
    var ucode :- kit.level(vek, UcodeSpl);
    if ucode != report.reportedTcb.microcode { return Err; }
    var snp :- kit.level(vek, SnpSpl);
    if snp != report.reportedTcb.snp { return Err; }
    var tee :- kit.level(vek, TeeSpl);
    if tee != report.reportedTcb.tee { return Err; }
    var loader :- kit.level(vek, LoaderSpl);
    if loader != report.reportedTcb.bootloader { return Err; }
    if generation.Turin? {
      var fmc :- kit.level(vek, FmcSpl);
      if report.reportedTcb.fmc != Some(fmc) { return Err; }
    }
    return Ok(());
  }

  // ---- The data in the report ----

  /** Padded with zeros or cut to `n` bytes. */
  function Regularized(data: Bytes, n: nat): (r: Bytes)
    ensures |r| == n
    ensures forall i :: 0 <= i < n ==> r[i] == if i < |data| then data[i] else 0
  {
    if |data| < n then data + seq(n - |data|, _ => 0) else data[..n]
  }

  /** Data of one length that fits is told apart: a report matches at most one digest. */
  lemma RegularizedInjective(a: Bytes, b: Bytes, n: nat)
    requires |a| == |b| <= n && Regularized(a, n) == Regularized(b, n)
    ensures a == b
  {
    forall i | 0 <= i < |a| ensures a[i] == b[i] {
      assert Regularized(a, n)[i] == Regularized(b, n)[i];
    }
  }

  predicate DataMatches(expected: Option<Bytes>, actual: Bytes) {
    expected.Some? ==> Regularized(expected.value, |actual|) == actual
  }

  /** The claims about an accepted report. */
  function ReportClaims(report: Report): Json {
    Obj(map[
      "policy_abi_major" := Num(report.policy.abiMajor),
      "policy_abi_minor" := Num(report.policy.abiMinor),
      "policy_smt_allowed" := Bool(report.policy.smtAllowed),
      "policy_migrate_ma" := Bool(report.policy.migrateMa),
      "policy_debug_allowed" := Bool(report.policy.debugAllowed),
      "policy_single_socket" := Bool(report.policy.singleSocket),
      "reported_tcb_bootloader" := Num(report.reportedTcb.bootloader),
      "reported_tcb_tee" := Num(report.reportedTcb.tee),
      "reported_tcb_snp" := Num(report.reportedTcb.snp),
      "reported_tcb_microcode" := Num(report.reportedTcb.microcode),
      "platform_tsme_enabled" := Bool(report.tsmeEnabled),
      "platform_smt_enabled" := Bool(report.smtEnabled),
      "measurement" := Str(Base64.Encode(report.measurement)),
      "report_data" := Str(Base64.Encode(report.reportData)),
      "init_data" := Str(Base64.Encode(report.hostData))])
  }

  // ---- Acceptance ----

  predicate Accepts(kit: Kit, ev: Evidence, reportData: Option<Bytes>, initHash: Option<Bytes>) {
    && 3 <= ev.report.version <= 5
    && ev.report.vmpl == 0
    && ProcessorGeneration(ev.report).Ok?
    && var generation := ProcessorGeneration(ev.report).value;
    && var key := EndorsedKey(kit, ev, generation);
    && key.Some?
    && kit.signsReport(key.value, ev.report)
    && TcbMatches(kit, ev.report, key.value, generation)
    && DataMatches(reportData, ev.report.reportData)
    && DataMatches(initHash, ev.report.hostData)
  }

  /** The chain part of the evaluation. */
  method FindKey(kit: Kit, ev: Evidence, generation: Generation) returns (r: Result<Cert>)
    ensures r == match EndorsedKey(kit, ev, generation) case Some(key) => Ok(key) case None => Err
  {
    var vendor := kit.vendor(generation);
    var ark, ask, vek;
    match ev.certChain {
      case Some(table) =>
        var s :- SelectCertificates(kit, vendor.ark, table);
        if s.vek.None? { return Err; }
        vek := s.vek.value;
        ark := if s.ark.Some? then s.ark.value else vendor.ark;
        ask := if s.ask.Some? then s.ask.value else if s.vlek then vendor.asvk else vendor.ask;
      case None =>
        var der :- FetchVcek(kit, ev.report, generation);
        vek :- kit.parse(der);
        ark, ask := vendor.ark, vendor.ask;
    }
    if !ChainVerifies(kit, ark, ask, vek) { return Err; }
    return Ok(vek);
  }

  method Evaluate(kit: Kit, ev: Evidence, reportData: Option<Bytes>, initHash: Option<Bytes>)
    returns (r: Result<Json>)
    ensures r.Ok? <==> Accepts(kit, ev, reportData, initHash)
    ensures r.Ok? ==> r.value == ReportClaims(ev.report)
  {
    var report := ev.report;
    if report.version < 3 { return Err; }
    if report.version > 5 { return Err; }
    var generation :- ProcessorGeneration(report);
    var vek :- FindKey(kit, ev, generation);
    if !kit.signsReport(vek, report) { return Err; }
    var _ :- VerifyReportTcb(kit, report, vek, generation);
    if report.vmpl != 0 { return Err; }
    if reportData.Some? && Regularized(reportData.value, 64) != report.reportData { return Err; }
    if initHash.Some? && Regularized(initHash.value, 32) != report.hostData { return Err; }
    return Ok(ReportClaims(report));
  }

  /** A chain of signatures. */
  predicate SigningPath(kit: Kit, path: seq<Cert>, report: Report) {
    && path != []
    && (forall i :: 0 <= i < |path| - 1 ==> kit.signs(path[i], path[i + 1]))
    && kit.signsReport(path[|path| - 1], report)
  }

  /** An accepted report hangs on the provisioned root: signatures lead from there through an
      intermediate to the key that signed it. */
  lemma AcceptedIsSigned(kit: Kit, ev: Evidence, reportData: Option<Bytes>, initHash: Option<Bytes>)
    returns (path: seq<Cert>)
    requires Accepts(kit, ev, reportData, initHash)
    ensures SigningPath(kit, path, ev.report) && |path| >= 3
    ensures path[0] == kit.vendor(ProcessorGeneration(ev.report).value).ark
    ensures EndorsedKey(kit, ev, ProcessorGeneration(ev.report).value) == Some(path[|path| - 1])
  {
    var generation := ProcessorGeneration(ev.report).value;
    var vendor, vek := kit.vendor(generation), EndorsedKey(kit, ev, generation).value;
    path := [vendor.ark, vendor.ask, vek];
    if ev.certChain.Some? {
      var table := ev.certChain.value;
      var s := Selected(kit, table);
      var ask := if s.ask.Some? then s.ask.value else if s.vlek then vendor.asvk else vendor.ask;
      if s.ark.Some? {
        assert EntryOk(kit, vendor.ark, table, LastOf(table, ARK).value);
        path := [vendor.ark, s.ark.value, ask, vek];
      } else {
        path := [vendor.ark, ask, vek];
      }
    }
  }

  /** What an accepted certificate table looks like: its key is the first endorsement key, whatever
      comes after; every supplied root is signed by the provisioned one; and an intermediate that is
      not supplied is the vendor's for the kind of this key. */
  lemma AcceptedTable(kit: Kit, ev: Evidence, reportData: Option<Bytes>, initHash: Option<Bytes>) returns (f: nat)
    requires Accepts(kit, ev, reportData, initHash) && ev.certChain.Some?
    ensures var table, generation := ev.certChain.value, ProcessorGeneration(ev.report).value;
      var vendor := kit.vendor(generation);
      && f < |table| && IsVek(table[f]) && (forall j :: 0 <= j < f ==> !IsVek(table[j]))
      && EndorsedKey(kit, ev, generation) == CertOf(kit, table[f])
      && (forall i :: 0 <= i < |table| && table[i].kind.ARK? ==>
            CertOf(kit, table[i]).Some? && kit.signs(vendor.ark, CertOf(kit, table[i]).value))
      && ((forall i :: 0 <= i < |table| ==> !table[i].kind.ASK?) ==>
            kit.signs(if table[f].kind.VLEK? then vendor.asvk else vendor.ask,
                      EndorsedKey(kit, ev, generation).value))
  {
    var table := ev.certChain.value;
    var vendor := kit.vendor(ProcessorGeneration(ev.report).value);
    KeySeen(kit, vendor.ark, table);
    f := FirstVek(table).value;
    forall i | 0 <= i < |table| && table[i].kind.ARK?
      ensures CertOf(kit, table[i]).Some? && kit.signs(vendor.ark, CertOf(kit, table[i]).value)
    {
      assert EntryOk(kit, vendor.ark, table, i);
    }
  }

  /** A report accepted for two digests of one length that fits was accepted for one digest. */
  lemma ReportBindsDigest(kit: Kit, ev: Evidence, a: Bytes, b: Bytes, initHash: Option<Bytes>)
    requires Accepts(kit, ev, Some(a), initHash) && Accepts(kit, ev, Some(b), initHash)
    requires |a| == |b| <= 64
    ensures a == b
  {
    RegularizedInjective(a, b, 64);
  }

  // ---- What acceptance says about the report, check by check ----

  /** Which processors are of which generation; no others are accepted. */
  predicate IsOf(report: Report, generation: Generation) {
    && report.family.Some? && report.model.Some?
    && var family, model := report.family.value, report.model.value;
    match generation
    case Milan => family == 0x19 && model <= 0x0F
    case Genoa => family == 0x19 && (0x10 <= model <= 0x1F || 0xA0 <= model <= 0xAE)
    case Turin => family == 0x1A && model <= 0x11
  }

  lemma GenerationIff(report: Report, generation: Generation)
    ensures ProcessorGeneration(report) == Ok(generation) <==> IsOf(report, generation)
  {
  }

  /** An accepted report has a supported version and privilege level 0, is of a known processor, and
      its signing path starts at the root of that processor's generation. */
  lemma AcceptedProcessor(kit: Kit, ev: Evidence, reportData: Option<Bytes>, initHash: Option<Bytes>)
    returns (generation: Generation, path: seq<Cert>)
    requires Accepts(kit, ev, reportData, initHash)
    ensures IsOf(ev.report, generation) && (ev.report.version == 3 || ev.report.version == 4 || ev.report.version == 5)
    ensures ev.report.vmpl == 0
    ensures SigningPath(kit, path, ev.report) && |path| >= 3 && path[0] == kit.vendor(generation).ark
  {
    generation := ProcessorGeneration(ev.report).value;
    GenerationIff(ev.report, generation);
    path := AcceptedIsSigned(kit, ev, reportData, initHash);
  }

  /** An accepted report states the levels its key was issued for, and of a VCEK the chip as well. */
  lemma AcceptedLevels(kit: Kit, ev: Evidence, reportData: Option<Bytes>, initHash: Option<Bytes>)
    returns (key: Cert)
    requires Accepts(kit, ev, reportData, initHash)
    ensures kit.signsReport(key, ev.report) && kit.commonName(key).Ok?
    ensures EndorsedKey(kit, ev, ProcessorGeneration(ev.report).value) == Some(key)
    ensures kit.commonName(key) == Ok("VCEK") ==> kit.hardwareId(key) == Ok(ev.report.chipId)
    ensures kit.level(key, UcodeSpl) == Ok(ev.report.reportedTcb.microcode)
    ensures kit.level(key, SnpSpl) == Ok(ev.report.reportedTcb.snp)
    ensures kit.level(key, TeeSpl) == Ok(ev.report.reportedTcb.tee)
    ensures kit.level(key, LoaderSpl) == Ok(ev.report.reportedTcb.bootloader)
    ensures IsOf(ev.report, Turin) ==>
      ev.report.reportedTcb.fmc.Some? && kit.level(key, FmcSpl) == Ok(ev.report.reportedTcb.fmc.value)
  {
    GenerationIff(ev.report, Turin);
    key := EndorsedKey(kit, ev, ProcessorGeneration(ev.report).value).value;
  }

  /** It carries the expected data, each cut or padded to the length of its field. */
  lemma AcceptedData(kit: Kit, ev: Evidence, reportData: Option<Bytes>, initHash: Option<Bytes>)
    requires Accepts(kit, ev, reportData, initHash)
    ensures reportData.Some? ==>
      forall i :: 0 <= i < 64 ==>
        ev.report.reportData[i] == if i < |reportData.value| then reportData.value[i] else 0
    ensures initHash.Some? ==>
      forall i :: 0 <= i < 32 ==> ev.report.hostData[i] == if i < |initHash.value| then initHash.value[i] else 0
  {
    if reportData.Some? {
      assert Regularized(reportData.value, 64) == ev.report.reportData;
    }
    if initHash.Some? {
      assert Regularized(initHash.value, 32) == ev.report.hostData;
    }
  }

  predicate IsLast(table: seq<CertTableEntry>, kind: CertType, i: int) {
    0 <= i < |table| && table[i].kind == kind && forall j :: i < j < |table| ==> table[j].kind != kind
  }

  /** The certificates an accepted table is checked with: its last root, or else the provisioned one,
      signs itself and the intermediate; its last intermediate, or else the vendor's, signs the key. */
  lemma AcceptedChain(kit: Kit, ev: Evidence, reportData: Option<Bytes>, initHash: Option<Bytes>)
    returns (ark: Cert, ask: Cert, key: Cert)
    requires Accepts(kit, ev, reportData, initHash)
    ensures kit.signs(ark, ark) && kit.signs(ark, ask) && kit.signs(ask, key) && kit.signsReport(key, ev.report)
    ensures var vendor := kit.vendor(ProcessorGeneration(ev.report).value);
      match ev.certChain
      case None => ark == vendor.ark && ask == vendor.ask
      case Some(table) =>
        && (forall i :: IsLast(table, ARK, i) ==> CertOf(kit, table[i]) == Some(ark))
        && (forall i :: IsLast(table, ASK, i) ==> CertOf(kit, table[i]) == Some(ask))
        && ((forall i :: 0 <= i < |table| ==> !table[i].kind.ARK?) ==> ark == vendor.ark)
  {
    var vendor := kit.vendor(ProcessorGeneration(ev.report).value);
    key := EndorsedKey(kit, ev, ProcessorGeneration(ev.report).value).value;
    ark, ask := vendor.ark, vendor.ask;
    if ev.certChain.Some? {
      var table := ev.certChain.value;
      var s := Selected(kit, table);
      if s.ark.Some? { ark := s.ark.value; }
      ask := if s.ask.Some? then s.ask.value else if s.vlek then vendor.asvk else vendor.ask;
      if LastOf(table, ARK).Some? { assert EntryOk(kit, vendor.ark, table, LastOf(table, ARK).value); }
      if LastOf(table, ASK).Some? { assert EntryOk(kit, vendor.ark, table, LastOf(table, ASK).value); }
    }
  }

  /** Without a table the key is what the key service gave for this report and its generation, which
      needs a chip id, and for Turin an FMC level. */
  lemma AcceptedFetch(kit: Kit, ev: Evidence, reportData: Option<Bytes>, initHash: Option<Bytes>)
    returns (generation: Generation, der: Bytes)
    requires Accepts(kit, ev, reportData, initHash) && ev.certChain.None?
    ensures IsOf(ev.report, generation) && kit.fetch(ev.report, generation) == Ok(der)
    ensures kit.parse(der).Ok? && kit.signsReport(kit.parse(der).value, ev.report)
    ensures exists i :: 0 <= i < 64 && ev.report.chipId[i] != 0
    ensures generation.Turin? ==> ev.report.reportedTcb.fmc.Some?
  {
    generation := ProcessorGeneration(ev.report).value;
    GenerationIff(ev.report, generation);
    der := FetchVcek(kit, ev.report, generation).value;
  }

  /** A genuine report is accepted: every check that acceptance stands for, put together, with a table
      that brings nothing but one endorsement key. */
  lemma GenuineIsAccepted(kit: Kit, report: Report, generation: Generation, kind: CertType, der: Bytes, key: Cert)
    requires IsOf(report, generation) && 3 <= report.version <= 5 && report.vmpl == 0
    requires (kind.VCEK? || kind.VLEK?) && kit.parse(der) == Ok(key) && kit.signsReport(key, report)
    requires var vendor := kit.vendor(generation);
      var ask := if kind.VLEK? then vendor.asvk else vendor.ask;
      kit.signs(vendor.ark, vendor.ark) && kit.signs(vendor.ark, ask) && kit.signs(ask, key)
    requires kit.commonName(key).Ok?
          && (kit.commonName(key) == Ok("VCEK") ==> kit.hardwareId(key) == Ok(report.chipId))
    requires kit.level(key, UcodeSpl) == Ok(report.reportedTcb.microcode)
          && kit.level(key, SnpSpl) == Ok(report.reportedTcb.snp)
          && kit.level(key, TeeSpl) == Ok(report.reportedTcb.tee)
          && kit.level(key, LoaderSpl) == Ok(report.reportedTcb.bootloader)
    requires generation.Turin? ==>
      report.reportedTcb.fmc.Some? && kit.level(key, FmcSpl) == Ok(report.reportedTcb.fmc.value)
    ensures Accepts(kit, Evidence(report, Some([CertTableEntry(kind, der)])),
                    Some(report.reportData), Some(report.hostData))
  {
    var table := [CertTableEntry(kind, der)];
    GenerationIff(report, generation);
    assert FirstVek(table) == Some(0) by { assert IsVek(table[0]); }
    assert LastOf(table, ARK).None? && LastOf(table, ASK).None?;
    assert TableOk(kit, kit.vendor(generation).ark, table);
    assert Regularized(report.reportData, 64) == report.reportData;
    assert Regularized(report.hostData, 32) == report.hostData;
  }

  // ---- The claims ----

  /** The claims about a report tell its data: in Base64 what is bytes, the rest as it is. */
  lemma ClaimsTellData(report: Report)
    ensures exists t ::
      Field(ReportClaims(report), "report_data") == Some(Str(t)) && Base64.Decode(t) == Ok(report.reportData)
    ensures exists t ::
      Field(ReportClaims(report), "init_data") == Some(Str(t)) && Base64.Decode(t) == Ok(report.hostData)
    ensures exists t ::
      Field(ReportClaims(report), "measurement") == Some(Str(t)) && Base64.Decode(t) == Ok(report.measurement)
  {
    Base64.DecodeInvertsEncode(report.reportData);
    Base64.DecodeInvertsEncode(report.hostData);
    Base64.DecodeInvertsEncode(report.measurement);
    var c := ReportClaims(report);
    assert Field(c, "report_data") == Some(Str(Base64.Encode(report.reportData)));
    assert Field(c, "init_data") == Some(Str(Base64.Encode(report.hostData)));
    assert Field(c, "measurement") == Some(Str(Base64.Encode(report.measurement)));
  }

  lemma ClaimsTellLevels(report: Report)
    ensures var c := ReportClaims(report);
      && Field(c, "reported_tcb_bootloader") == Some(Num(report.reportedTcb.bootloader))
      && Field(c, "reported_tcb_tee") == Some(Num(report.reportedTcb.tee))
      && Field(c, "reported_tcb_snp") == Some(Num(report.reportedTcb.snp))
      && Field(c, "reported_tcb_microcode") == Some(Num(report.reportedTcb.microcode))
  {
  }

  lemma ClaimsTellPolicy(report: Report)
    ensures var c := ReportClaims(report);
      && Field(c, "policy_abi_major") == Some(Num(report.policy.abiMajor))
      && Field(c, "policy_abi_minor") == Some(Num(report.policy.abiMinor))
      && Field(c, "policy_smt_allowed") == Some(Bool(report.policy.smtAllowed))
  {
  }

  lemma ClaimsTellMode(report: Report)
    ensures var c := ReportClaims(report);
      && Field(c, "policy_migrate_ma") == Some(Bool(report.policy.migrateMa))
      && Field(c, "policy_debug_allowed") == Some(Bool(report.policy.debugAllowed))
      && Field(c, "policy_single_socket") == Some(Bool(report.policy.singleSocket))
  {
  }

  lemma ClaimsTellPlatform(report: Report)
    ensures var c := ReportClaims(report);
      && Field(c, "platform_tsme_enabled") == Some(Bool(report.tsmeEnabled))
      && Field(c, "platform_smt_enabled") == Some(Bool(report.smtEnabled))
  {
  }
}
