/**
 * How `main` settles where to post and with which headers: the command line first, the
 * Data to Server configuration file for what the command line leaves empty, and the header
 * string turned into a dictionary. Also the BLE scan window `main` reports in the body.
 */
module CliSniff {
  import opened Wrappers
  import opened Text
  import opened Dicts
  import opened Reader
  import Ubus

  /** Why `main` ends before it starts scanning. */
  datatype Stop =
    | SenderConfigMissing          // FileNotFoundError from the reader's constructor
    | ConfigError(e: ParseError)   // an exception from `parse`
    | NoUrl                        // `sys.exit(1)`: no URL given or found
    | NoHeaders                    // `sys.exit(1)`: no headers given or found
    | NoHeaderValue                // IndexError: indexing the empty text a search gave
    | HeaderWithoutColon           // IndexError: a header segment without ':'

  /** Where to post and with which headers. */
  datatype Endpoint = Endpoint(url: FieldValue, headers: Dict<string, string>)

  /** The two pieces of a header segment `h.split(":")` gives first. */
  function HeaderKey(segment: string): string {
    Split(segment, ":")[0]
  }

  function HeaderValue(segment: string): string
    requires |Split(segment, ":")| >= 2
  {
    Split(segment, ":")[1]
  }

  /** The dict comprehension over header segments, added one by one to `acc`. */
  function Collect(acc: Dict<string, string>, segments: seq<string>): Result<Dict<string, string>, Stop>
    decreases |segments|
  {
    if segments == [] then Ok(acc)
    else if |Split(segments[0], ":")| < 2 then Err(HeaderWithoutColon)
    else Collect(Put(acc, HeaderKey(segments[0]), HeaderValue(segments[0])), segments[1..])
  }

  /** `{h.split(":")[0]: h.split(":")[1] for h in headers.split(",")}`. */
  function HeaderMap(headers: string): (r: Result<Dict<string, string>, Stop>)
    ensures r.Ok? <==> forall i :: 0 <= i < |Split(headers, ",")| ==> ':' in Split(headers, ",")[i]
  {
    var segments := Split(headers, ",");
    CollectOk(Empty(), segments);
    Collect(Empty(), segments)
  }

  /** The comprehension succeeds exactly when every segment holds a ':'. */
  lemma {:induction false} CollectOk(acc: Dict<string, string>, segments: seq<string>)
    ensures Collect(acc, segments).Ok? <==> forall i :: 0 <= i < |segments| ==> ':' in segments[i]
    decreases |segments|
  {
    if segments != [] {
      SplitFirst(segments[0], ":");
      ContainsChar(segments[0], ':');
      if |Split(segments[0], ":")| >= 2 {
        CollectOk(Put(acc, HeaderKey(segments[0]), HeaderValue(segments[0])), segments[1..]);
        assert forall i :: 1 <= i < |segments| ==> segments[1..][i - 1] == segments[i];
      }
    }
  }

  /** A successful comprehension met a ':' in every segment. */
  lemma {:induction false} CollectSplitsAll(acc: Dict<string, string>, segments: seq<string>, i: nat)
    requires Collect(acc, segments).Ok? && i < |segments|
    ensures |Split(segments[i], ":")| >= 2
    decreases |segments|
  {
    var first := Split(segments[0], ":");
    assert |first| >= 2;
    if i > 0 {
      CollectSplitsAll(Put(acc, first[0], first[1]), segments[1..], i - 1);
    }
  }

  /** A key that no segment names keeps the value it had. */
  lemma {:induction false} CollectKeepsUnnamed(acc: Dict<string, string>, segments: seq<string>, key: string)
    requires Collect(acc, segments).Ok?
    requires forall i :: 0 <= i < |segments| ==> HeaderKey(segments[i]) != key
    ensures Get(Collect(acc, segments).value, key) == Get(acc, key)
    decreases |segments|
  {
    if segments != [] {
      var tail := segments[1..];
      assert forall i :: 1 <= i < |segments| ==> tail[i - 1] == segments[i];
      CollectKeepsUnnamed(Put(acc, HeaderKey(segments[0]), HeaderValue(segments[0])), tail, key);
    }
  }

  /** A key ends up with the value of the last segment that names it. */
  lemma {:induction false} CollectLastWins(acc: Dict<string, string>, segments: seq<string>, i: nat)
    requires Collect(acc, segments).Ok? && i < |segments|
    requires forall j :: i < j < |segments| ==> HeaderKey(segments[j]) != HeaderKey(segments[i])
    ensures |Split(segments[i], ":")| >= 2
    ensures Get(Collect(acc, segments).value, HeaderKey(segments[i])) == Some(HeaderValue(segments[i]))
    decreases |segments|
  {
    CollectSplitsAll(acc, segments, i);
    var next := Put(acc, HeaderKey(segments[0]), HeaderValue(segments[0]));
    var tail := segments[1..];
    assert forall j :: 1 <= j < |segments| ==> tail[j - 1] == segments[j];
    if i == 0 {
      CollectKeepsUnnamed(next, tail, HeaderKey(segments[0]));
    } else {
      CollectLastWins(next, tail, i - 1);
    }
  }

  /**
   * A header segment splits at its first ':' into the key before it and the value after it,
   * up to the next ':' or the end; leading spaces of the value are kept.
   */
  lemma SegmentPieces(segment: string)
    requires ':' in segment
    ensures Find(segment, ":").Some? && |Split(segment, ":")| >= 2
    ensures var i := Find(segment, ":").value;
            var rest := segment[i + 1..];
            var v := HeaderValue(segment);
      && HeaderKey(segment) == segment[..i]
      && v == rest[..|v|]
      && ':' !in v
      && (|v| == |rest| || rest[|v|] == ':')
  {
    ContainsChar(segment, ':');
    SplitFirst(segment, ":");
    SplitSecond(segment, ":");
    var i := Find(segment, ":").value;
    var rest := segment[i + 1..];
    SplitFirst(rest, ":");
    var v := HeaderValue(segment);
    ContainsChar(v, ':');
    if |v| < |rest| {
      assert rest[|v|..][..1] == [rest[|v|]];
    }
  }

  /** Python's truth value of a searched field: empty text and an empty list are false. */
  predicate Found(v: FieldValue) {
    match v
    case Scalar(s) => s != ""
    case Items(xs) => xs != []
  }

  /**
   * `dsr.search(query)[0]` as written: the first character of a text, the first item of a
   * list; indexing an empty one raises IndexError.
   */
  function FirstHeaderAsWritten(v: FieldValue): (r: Result<string, Stop>)
    ensures r.Err? <==> !Found(v)
    ensures r.Ok? && v.Scalar? ==> r.value == v.text[..1]
    ensures r.Ok? && v.Items? ==> r.value == v.list[0]
  {
    match v
    case Scalar(s) => if s == "" then Err(NoHeaderValue) else Ok([s[0]])
    case Items(xs) => if xs == [] then Err(NoHeaderValue) else Ok(xs[0])
  }

  /**
   * The headers a search result stands for: the whole text of an `option` line, the first
   * item of a `list` line, and "" (so the run stops with its message) when nothing was found.
   */
  function FirstHeader(v: FieldValue): (h: string)
    ensures v.Scalar? ==> h == v.text
    ensures v.Items? ==> h == if v.list == [] then "" else v.list[0]
    ensures h == "" <==> !Found(v) || (v.Items? && v.list[0] == "")
  {
    match v
    case Scalar(s) => s
    case Items(xs) => if xs == [] then "" else xs[0]
  }

  /** A header kept in an `option` line, as the default one is written. */
  const SampleHeader := "content-type: text/plain; charset=utf-8"

  /**
   * Indexing keeps only the first character of a text: for the sample header the program
   * then fails on a segment without ':', where the whole text gives one header.
   */
  lemma HeaderFirstCharacterOnly()
    ensures FirstHeaderAsWritten(Scalar(SampleHeader)) == Ok("c")
    ensures HeaderMap("c").Err?
    ensures HeaderMap(FirstHeader(Scalar(SampleHeader))).Ok?
  {
    SingleSegment("c");
    CollectOk(Empty(), ["c"]);
    SampleHeaderParses();
  }

  /** The sample header, taken whole, is one well-formed segment. */
  lemma SampleHeaderParses()
    ensures HeaderMap(SampleHeader).Ok?
  {
    assert SampleHeader[12] == ':';
    SingleSegment(SampleHeader);
    CollectOk(Empty(), [SampleHeader]);
  }

  /** Text without a ',' is a single header segment. */
  lemma SingleSegment(h: string)
    requires ',' !in h
    ensures Split(h, ",") == [h]
  {
    ContainsChar(h, ',');
    SplitFirst(h, ",");
    assert h[..|h|] == h;
  }

  /** With no match the search gives "", which indexing turns into IndexError, not the exit. */
  lemma HeaderNotFoundRaises()
    ensures FirstHeaderAsWritten(Scalar("")) == Err(NoHeaderValue)
    ensures FirstHeader(Scalar("")) == ""
  {
  }

  /**
   * The URL and header resolution of `main`, given the command-line values (empty when not
   * given), the fields the two queries name, and the lines of the Data to Server file (None
   * when it cannot be opened). The file is read only when one of the two values is empty.
   */
  method ResolveEndpoint(apiUrl: string, apiHeaders: string, urlField: string, headerField: string,
                         senderLines: Option<seq<string>>)
    returns (r: Result<Endpoint, Stop>)
    ensures apiUrl != "" && apiHeaders != "" ==>
      r == (match HeaderMap(apiHeaders)
            case Ok(h) => Ok(Endpoint(Scalar(apiUrl), h))
            case Err(e) => Err(e))
    ensures (apiUrl == "" || apiHeaders == "") && senderLines.None? ==> r == Err(SenderConfigMissing)
    ensures (apiUrl == "" || apiHeaders == "") && senderLines.Some? && ParseConfig(senderLines.value).Err? ==>
      r == Err(ConfigError(ParseConfig(senderLines.value).error))
    ensures (apiUrl == "" || apiHeaders == "") && senderLines.Some? && ParseConfig(senderLines.value).Ok? ==>
      var cfg := ParseConfig(senderLines.value).value;
      var url := if apiUrl != "" then Scalar(apiUrl) else LastMatch(cfg, urlField);
      var headers := if apiHeaders != "" then apiHeaders else FirstHeader(LastMatch(cfg, headerField));
      && (!Found(url) ==> r == Err(NoUrl))
      && (Found(url) && headers == "" ==> r == Err(NoHeaders))
      && (Found(url) && headers != "" ==>
            r == (match HeaderMap(headers)
                  case Ok(h) => Ok(Endpoint(url, h))
                  case Err(e) => Err(e)))
  {
    var url := Scalar(apiUrl);
    var headers := apiHeaders;
    if apiUrl == "" || apiHeaders == "" {
      if senderLines.None? {
        return Err(SenderConfigMissing);
      }
      var dsr := new DataSenderReader(senderLines.value);
      var parsed := dsr.Parse();
      if parsed.Err? {
        return Err(ConfigError(parsed.error));
      }
      if apiUrl == "" {
        var found := dsr.Search(urlField);
        url := found.value;
        if !Found(url) {
          return Err(NoUrl);
        }
      }
      if apiHeaders == "" {
        var found := dsr.Search(headerField);
        headers := FirstHeader(found.value);
        if headers == "" {
          return Err(NoHeaders);
        }
      }
    }
    var h := HeaderMap(headers);
    if h.Err? {
      return Err(h.error);
    }
    r := Ok(Endpoint(url, h.value));
  }

  /**
   * The BLE part of `main`'s scan: the scan is started explicitly, other work follows, then
   * the results are collected and the body reports `(end_s - elapsed_s, end_s)`. A scan
   * failure other than the "too soon" one escapes. After a completed collect the window starts
   * at the reading taken before the scan command and spans at least the wait.
   */
  method BleScanWindow(ble: Ubus.BleSession, clock: Ubus.Clock, scanOutcome: Ubus.Outcome,
                       collectOutcome: Ubus.Outcome)
    returns (r: Result<(int, int), int>)
    requires ble.Valid(clock) && ble.scanS == -1
    modifies ble, ble.session, clock
    ensures ble.Valid(clock)
    ensures r.Err? <==> scanOutcome.Failed? && !Ubus.Tolerated(scanOutcome.status)
    ensures r.Err? ==> r.error == scanOutcome.status
    ensures r.Ok? && collectOutcome.Failed? ==> r.value == old(ble.session.Window())
    ensures r.Ok? && collectOutcome.Completed? ==>
      && r.value == (old(clock.Next()), ble.session.endS)
      && r.value.1 - r.value.0 >= ble.waitS
  {
    var s := ble.Scan(clock, scanOutcome);
    if s.Err? {
      return Err(s.error);
    }
    var collected, scanned, released := ble.Results(clock, scanOutcome, collectOutcome);
    r := Ok(ble.session.Window());
  }
}
