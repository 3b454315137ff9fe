/**
 * A `ubus` session: it runs a result command, decodes what the command prints, and keeps the
 * timing of the last collect (`start_s`, `end_s`, `elapsed_s`). A BLE session first starts a
 * scan, then waits `wait_s` seconds before collecting. Commands and the clock are outside the
 * model: a command is given by its outcome, the clock by the readings it will give.
 */
module Ubus {
  import opened Wrappers
  import opened Text
  import opened Dicts
  import opened JsonData
  import opened DeviceParser

  /** How a command ended: with exit status 0 and what it printed, or with another status. */
  datatype Outcome = Completed(stdout: string) | Failed(status: int)

  /** Every reading at a later call is at least every reading at an earlier one. */
  ghost predicate Monotone(tick: nat -> int) {
    forall m: nat, n: nat :: m <= n ==> tick(m) <= tick(n)
  }

  /**
   * `time.time()`: the n-th reading is `tick(n)`. Readings never go back, are positive (seconds
   * since the epoch), and pass any given time after finitely many readings (`reach`).
   */
  class Clock {
    const tick: nat -> int
    ghost const reach: int -> nat
    var calls: nat

    ghost predicate Valid() {
      && Monotone(tick)
      && (forall n: nat :: tick(n) > 0)
      && (forall x: int :: tick(reach(x)) >= x)
    }

    constructor (tick: nat -> int, ghost reach: int -> nat)
      requires Monotone(tick) && (forall n: nat :: tick(n) > 0) && (forall x: int :: tick(reach(x)) >= x)
      ensures Valid() && this.tick == tick && this.reach == reach && calls == 0
    {
      this.tick := tick;
      this.reach := reach;
      calls := 0;
    }

    /** The reading the next call will give. */
    function Next(): int
      reads this
    {
      tick(calls)
    }

    method Now() returns (t: int)
      modifies this
      ensures t == old(Next()) && calls == old(calls) + 1
    {
      t := tick(calls);
      calls := calls + 1;
    }
  }

  /** `read_stdout`: the decoded document, or the text itself when it is not JSON. */
  function ReadStdout(decode: string -> Option<Json>, stdout: string): (r: Json)
    ensures decode(stdout).Some? ==> r == decode(stdout).value
    ensures decode(stdout).None? ==> r == JStr(stdout)
  {
    match decode(stdout)
    case Some(doc) => doc
    case None => JStr(stdout)
  }

  /** `self.start_s or time.time()`: the kept start when there is one, else the current reading. */
  function Began(startS: int, now: int): int {
    if startS != 0 then startS else now
  }

  /** The `{}` that a failed collect returns. */
  function EmptyResult(): Json {
    JObj(Empty())
  }

  /** `Ubus`: a result command, its parsers, and the state of the last collect. */
  class Session {
    const resultCmd: string
    const scanParser: ScanParser
    const deviceParser: Option<DeviceKind>
    /** `json.loads`: the document a text decodes to, or None when it is not JSON. */
    const decode: string -> Option<Json>
    var result: Json
    var startS: int
    var endS: int
    var elapsedS: int

    constructor (resultCmd: string, scanParser: ScanParser, deviceParser: Option<DeviceKind>,
                 decode: string -> Option<Json>)
      ensures this.resultCmd == resultCmd && this.scanParser == scanParser
      ensures this.deviceParser == deviceParser && this.decode == decode
      ensures result == EmptyResult() && startS == 0 && endS == 0 && elapsedS == 0
    {
      this.resultCmd := resultCmd;
      this.scanParser := scanParser;
      this.deviceParser := deviceParser;
      this.decode := decode;
      result := EmptyResult();
      startS := 0;
      endS := 0;
      elapsedS := 0;
    }

    /** A pending start is a past reading, and the last collect took no negative time. */
    ghost predicate Valid(clock: Clock)
      reads this, clock
    {
      clock.Valid() && elapsedS >= 0 && (startS != 0 ==> startS <= clock.Next())
    }

    /**
     * The session after one collect: a collect that fails leaves the result and the timing
     * alone, except that a start it had to take is kept; a collect that succeeds measures from
     * the kept start (or from now) to a later reading, stores what the command printed and
     * clears the start, so the window it reports runs from that start to that reading.
     */
    twostate predicate Collected(clock: Clock, outcome: Outcome)
      reads this, clock
    {
      var began := Began(old(startS), old(clock.Next()));
      && (outcome.Failed? ==>
            && result == old(result) && endS == old(endS) && elapsedS == old(elapsedS)
            && startS == began
            && clock.calls == old(clock.calls) + (if old(startS) == 0 then 1 else 0))
      && (outcome.Completed? ==>
            && result == ReadStdout(decode, outcome.stdout)
            && clock.calls == old(clock.calls) + (if old(startS) == 0 then 2 else 1)
            && endS == clock.tick(clock.calls - 1)
            && elapsedS == endS - began
            && startS == 0
            && Window() == (began, endS))
    }

    /**
     * `_get_results` followed by `results`' handler: the collect, returning `{}` when the
     * command fails and the stored result otherwise.
     */
    method Results(clock: Clock, outcome: Outcome) returns (r: Json)
      requires Valid(clock)
      modifies this, clock
      ensures Valid(clock) && Collected(clock, outcome)
      ensures r == if outcome.Failed? then EmptyResult() else result
    {
      if startS == 0 {
        startS := clock.Now();
      }
      match outcome {
        case Failed(_) =>
          r := EmptyResult();
        case Completed(stdout) =>
          endS := clock.Now();
          elapsedS := endS - startS;
          result := ReadStdout(decode, stdout);
          startS := 0;
          r := result;
      }
    }

    /** The `start_s`/`end_s` pair the posted body reports for this session's last collect. */
    function Window(): (int, int)
      reads this
    {
      (endS - elapsedS, endS)
    }

    /** `filtered`: an explicitly given parser replaces the session's own. */
    function Filtered(data: Json, scan: Option<ScanParser>, device: Option<DeviceKind>): (r: Result<Json, Failure>)
      ensures scan.Some? && device.Some? ==> r == Scan(scan.value, data, device)
      ensures scan.Some? && device.None? ==> r == Scan(scan.value, data, deviceParser)
      ensures scan.None? && device.Some? ==> r == Scan(scanParser, data, device)
      ensures scan.None? && device.None? ==> r == Scan(scanParser, data, deviceParser)
    {
      Scan(if scan.Some? then scan.value else scanParser, data, if device.Some? then device else deviceParser)
    }

    /** `UbusFW.fw`: the firmware version, "unknown" when the collect gives none. */
    method Fw(clock: Clock, outcome: Outcome) returns (v: Result<Json, Failure>)
      requires Valid(clock)
      modifies this, clock
      ensures Valid(clock) && Collected(clock, outcome)
      ensures outcome.Failed? ==> v == Ok(Unknown)
      ensures outcome.Completed? ==> v == LookupOr(ReadStdout(decode, outcome.stdout), "fw", Unknown)
    {
      var r := Results(clock, outcome);
      v := LookupOr(r, "fw", Unknown);
    }

    /** `UbusSystem.hostname`: the host name, "unknown" when the collect gives none. */
    method Hostname(clock: Clock, outcome: Outcome) returns (v: Result<Json, Failure>)
      requires Valid(clock)
      modifies this, clock
      ensures Valid(clock) && Collected(clock, outcome)
      ensures outcome.Failed? ==> v == Ok(Unknown)
      ensures outcome.Completed? ==> v == LookupOr(ReadStdout(decode, outcome.stdout), "hostname", Unknown)
    {
      var r := Results(clock, outcome);
      v := LookupOr(r, "hostname", Unknown);
    }

    /** `UbusMnf.mac_serial`: the serial number and MAC address, each "unknown" when missing. */
    method MacSerial(clock: Clock, outcome: Outcome) returns (v: Result<Json, Failure>)
      requires Valid(clock)
      modifies this, clock
      ensures Valid(clock) && Collected(clock, outcome)
      ensures outcome.Failed? ==> v == Ok(SerialAndMac(Unknown, Unknown))
      ensures outcome.Completed? ==> v == MacSerialOf(ReadStdout(decode, outcome.stdout))
    {
      var r := Results(clock, outcome);
      v := MacSerialOf(r);
    }
  }

  const Unknown := JStr("unknown")

  /** Python's `r.get(key, dflt)`, which raises AttributeError when `r` is not a dict. */
  function LookupOr(r: Json, key: string, dflt: Json): (v: Result<Json, Failure>)
    ensures v.Err? <==> !r.JObj?
    ensures v.Ok? ==> (Field(r, key).Some? ==> v.value == Field(r, key).value)
    ensures v.Ok? ==> (Field(r, key).None? ==> v.value == dflt)
  {
    if r.JObj? then Ok(GetOr(r.fields, key, dflt)) else Err(NoGetMethod)
  }

  function SerialAndMac(serial: Json, mac: Json): Json {
    JObj(Dict(["serial", "mac"], map["serial" := serial, "mac" := mac]))
  }

  /** The body of `mac_serial` after the collect: both fields of `mnfinfo`, "unknown" if absent. */
  function MacSerialOf(r: Json): (v: Result<Json, Failure>)
    ensures !r.JObj? ==> v == Err(NoGetMethod)
    ensures r.JObj? && Field(r, "mnfinfo").None? ==> v == Ok(SerialAndMac(Unknown, Unknown))
    ensures r.JObj? && Field(r, "mnfinfo").Some? && !Field(r, "mnfinfo").value.JObj? ==> v == Err(NoGetMethod)
    ensures r.JObj? && Field(r, "mnfinfo").Some? && Field(r, "mnfinfo").value.JObj? ==>
      var info := Field(r, "mnfinfo").value;
      v == Ok(SerialAndMac(
        if Field(info, "serial").Some? then Field(info, "serial").value else Unknown,
        if Field(info, "mac").Some? then Field(info, "mac").value else Unknown))
  {
    match LookupOr(r, "mnfinfo", EmptyResult())
    case Err(e) => Err(e)
    case Ok(info) =>
      match LookupOr(info, "serial", Unknown)
      case Err(e) => Err(e)
      case Ok(serial) =>
        match LookupOr(info, "mac", Unknown)
        case Err(e) => Err(e)
        case Ok(mac) => Ok(SerialAndMac(serial, mac))
  }

  /** Every lookup gives "unknown" after a failed collect, whose result is `{}`. */
  lemma UnknownAfterFailedCollect()
    ensures LookupOr(EmptyResult(), "fw", Unknown) == Ok(Unknown)
    ensures LookupOr(EmptyResult(), "hostname", Unknown) == Ok(Unknown)
    ensures MacSerialOf(EmptyResult()) == Ok(SerialAndMac(Unknown, Unknown))
  {
  }

  // ---- The BLE scan and its tolerated failure ----

  /** The scanner refuses a scan started too soon after the previous one with exit status 6. */
  const TooSoonStatus := 6

  /** A scan failure `scan` swallows: exactly the "too soon" status. */
  predicate Tolerated(status: int) {
    status == TooSoonStatus
  }

  /**
   * `str(CalledProcessError)`: the message of a failed command. A negative status is a
   * signal; its wording is abbreviated here and never holds the text `scan` looks for.
   */
  function ErrorText(cmd: string, status: int): string {
    "Command '" + cmd + "' " + StatusText(status)
  }

  const StatusPrefix := "returned non-zero exit status "

  function StatusText(status: int): string {
    if status >= 0 then StatusPrefix + Decimal(status) + "." else "died with signal " + Decimal(-status) + "."
  }

  const TooSoonText := "returned non-zero exit status 6"

  /** The test `scan` performs: the "too soon" text occurs in the error message. */
  predicate ToleratedAsWritten(cmd: string, status: int) {
    Contains(ErrorText(cmd, status), TooSoonText)
  }

  /** A text occurs wherever it is placed. */
  lemma ContainsInside(a: string, m: string, b: string)
    ensures Contains(a + (m + b), m)
  {
    var s := a + (m + b);
    assert s[|a|..][..|m|] == m;
    assert StartsWith(s[|a|..], m);
  }

  /** The message test accepts status 6, as intended. */
  lemma AsWrittenToleratesTooSoon(cmd: string)
    ensures ToleratedAsWritten(cmd, TooSoonStatus) && Tolerated(TooSoonStatus)
  {
    assert StatusText(6) == TooSoonText + "." by {
      assert Decimal(6) == "6";
    }
    ContainsInside("Command '" + cmd + "' ", TooSoonText, ".");
  }

  /**
   * The message test also accepts status 60 (and 61 … 69, 600 …), whatever the command: the
   * message for 60 begins with the message for 6.
   */
  lemma AsWrittenToleratesSixty(cmd: string)
    ensures ToleratedAsWritten(cmd, 60) && !Tolerated(60)
  {
    assert StatusText(60) == TooSoonText + "0." by {
      assert Decimal(60) == "60";
    }
    ContainsInside("Command '" + cmd + "' ", TooSoonText, "0.");
  }

  /**
   * The message test accepts every exit status whose decimal form begins with 6 (6, 60 … 69,
   * 600 …), whatever the command.
   */
  lemma AsWrittenToleratesLeadingSix(cmd: string, status: nat)
    requires Decimal(status)[0] == '6'
    ensures ToleratedAsWritten(cmd, status)
  {
    var d := Decimal(status);
    StatusBeginsWithSix(d);
    ContainsInside("Command '" + cmd + "' ", TooSoonText, d[1..] + ".");
  }

  lemma StatusBeginsWithSix(d: string)
    requires d != [] && d[0] == '6'
    ensures StatusPrefix + d + "." == TooSoonText + (d[1..] + ".")
  {
    assert d == "6" + d[1..];
  }

  const BleWaitS := 10
  const BleScanCmd := "ubus call blesem scan.start"
  const BleResultCmd := "ubus call blesem scan.result"

  /** `UbusBLE`: a session whose collect follows a scan and a wait of `waitS` seconds. */
  class BleSession {
    const session: Session
    const waitS: int
    const scanCmd: string
    /** When the pending scan finished, or -1 when no scan is pending. */
    var scanS: int
    /** The number of scan commands issued. */
    ghost var scans: nat

    constructor (decode: string -> Option<Json>, waitS: int)
      ensures fresh(session) && session.resultCmd == BleResultCmd && session.decode == decode
      ensures session.scanParser == BleScan && session.deviceParser == Some(Ble)
      ensures session.result == EmptyResult() && session.startS == 0 && session.endS == 0 && session.elapsedS == 0
      ensures this.waitS == waitS && scanCmd == BleScanCmd && scanS == -1 && scans == 0
    {
      this.waitS := waitS;
      scanS := -1;
      scanCmd := BleScanCmd;
      scans := 0;
      session := new Session(BleResultCmd, BleScan, Some(Ble), decode);
    }

    ghost predicate Valid(clock: Clock)
      reads this, session, clock
    {
      && session.Valid(clock)
      && (scanS == -1 || 0 < scanS <= clock.Next())
      && (scanS != -1 ==> session.startS != 0)
    }

    /**
     * `scan`: takes the start, issues the scan; a failure other than the "too soon" one
     * escapes and leaves `scanS` alone, otherwise the scan is marked as finished now.
     */
    method Scan(clock: Clock, outcome: Outcome) returns (r: Result<(), int>)
      requires Valid(clock)
      modifies this, session, clock
      ensures Valid(clock)
      ensures session.startS == old(clock.Next()) && scans == old(scans) + 1
      ensures session.result == old(session.result) && session.endS == old(session.endS)
      ensures session.elapsedS == old(session.elapsedS)
      ensures r.Err? <==> outcome.Failed? && !Tolerated(outcome.status)
      ensures r.Err? ==> r.error == outcome.status && scanS == old(scanS) && clock.calls == old(clock.calls) + 1
      ensures r.Ok? ==> clock.calls == old(clock.calls) + 2 && scanS == clock.tick(old(clock.calls) + 1)
      ensures r.Ok? ==> session.startS <= scanS
    {
      session.startS := clock.Now();
      scans := scans + 1;
      if outcome.Failed? && !Tolerated(outcome.status) {
        return Err(outcome.status);
      }
      scanS := clock.Now();
      r := Ok(());
    }

    /** The polling loop of `results`: reads the clock until `waitS` seconds have passed since `scanS`. */
    method Wait(clock: Clock) returns (ghost released: int)
      requires Valid(clock) && scanS != -1
      modifies clock
      ensures Valid(clock) && released - scanS >= waitS
      ensures clock.calls > old(clock.calls) && released == clock.tick(clock.calls - 1)
    {
      ghost var target := scanS + waitS;
      var t := clock.Now();
      while t - scanS < waitS
        invariant Valid(clock) && clock.calls > old(clock.calls) && t == clock.tick(clock.calls - 1)
        decreases clock.reach(target) - clock.calls
      {
        t := clock.Now();
      }
      released := t;
    }

    /**
     * `UbusBLE.results`: scans when no scan is pending, polls the clock until `waitS` seconds
     * have passed since the scan finished, clears the pending scan and collects. The ghost
     * outputs are when the scan finished and the reading that ended the wait.
     */
    method Results(clock: Clock, scanOutcome: Outcome, collectOutcome: Outcome)
      returns (r: Result<Json, int>, ghost scanned: int, ghost released: int)
      requires Valid(clock)
      modifies this, session, clock
      ensures Valid(clock)
      ensures scans == old(scans) + (if old(scanS) == -1 then 1 else 0)
      ensures r.Err? <==> old(scanS) == -1 && scanOutcome.Failed? && !Tolerated(scanOutcome.status)
      ensures r.Err? ==> r.error == scanOutcome.status && scanS == -1
      ensures r.Err? ==> session.startS == old(clock.Next()) && session.result == old(session.result)
      ensures r.Err? ==> session.endS == old(session.endS) && session.elapsedS == old(session.elapsedS)
      ensures r.Ok? ==> scanS == -1
      ensures r.Ok? && old(scanS) != -1 ==> scanned == old(scanS)
      ensures r.Ok? && old(scanS) == -1 ==> scanned == clock.tick(old(clock.calls) + 1)
      ensures r.Ok? ==> released - scanned >= waitS
      ensures r.Ok? && collectOutcome.Completed? ==> released <= session.endS
      ensures r.Ok? && collectOutcome.Failed? ==>
        && r.value == EmptyResult() && session.result == old(session.result)
        && session.endS == old(session.endS) && session.elapsedS == old(session.elapsedS)
        && session.startS == (if old(scanS) == -1 then old(clock.Next()) else old(session.startS))
      ensures r.Ok? && collectOutcome.Completed? ==>
        r.value == session.result == ReadStdout(session.decode, collectOutcome.stdout) && session.startS == 0
      ensures r.Ok? && collectOutcome.Completed? ==>
        session.Window() == (if old(scanS) == -1 then old(clock.Next()) else old(session.startS), session.endS)
      ensures r.Ok? && collectOutcome.Completed? && (old(scanS) == -1 || old(session.startS) <= old(scanS)) ==>
        session.Window().0 <= scanned
    {
      if scanS == -1 {
        var s := Scan(clock, scanOutcome);
        if s.Err? {
          return Err(s.error), 0, 0;
        }
      }
      scanned := scanS;
      released := Wait(clock);
      scanS := -1;
      var collected := session.Results(clock, collectOutcome);
      r := Ok(collected);
    }
  }
}
