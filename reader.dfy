/**
 * The reader of the router's "Data to Server" configuration file (OpenWrt UCI text):
 * a tolerant line-oriented parser into a two-level ordered dictionary, and a lookup of a
 * field over all blocks that parses lazily and caches the parsed mapping.
 */
module Reader {
  import opened Wrappers
  import opened Text
  import opened Dicts

  /** A field holds the text of an `option` line or the items of `list` lines. */
  datatype FieldValue = Scalar(text: string) | Items(list: seq<string>)

  type Block = Dict<string, FieldValue>

  /** Blocks keyed by "<type> <name>", in the order they were first declared. */
  type Config = Dict<string, Block>

  /**
   * The exceptions `parse` lets escape: `MissingToken` is Python's IndexError (a line with too
   * few tokens), `AppendToText` its AttributeError (a `list` line onto a field holding text).
   */
  datatype ParseError = MissingToken | AppendToText

  /** The parser's loop state: the mapping built so far and the key of the open block. */
  datatype ParseState = ParseState(data: Config, current: Option<string>)

  const TypeField := "__type__"
  const NameField := "__name__"

  /** The fields a block starts with. */
  function Seed(blockType: string, name: string): Block {
    Dict([TypeField, NameField], map[TypeField := Scalar(blockType), NameField := Scalar(name)])
  }

  /** The value of an `option`/`list` line: the tokens after the key, joined and unquoted. */
  function EntryValue(parts: seq<string>): string
    requires |parts| >= 2
  {
    Strip(Join(parts[2..], " "), Quotes)
  }

  /** A block keeps its two synthetic fields. */
  predicate BlockOk(b: Block) {
    TypeField in b.values && NameField in b.values
  }

  /** What holds after every line: every block keeps its synthetic fields and the open block exists. */
  ghost predicate WellFormed(st: ParseState) {
    && (forall k :: k in st.data.values ==> BlockOk(st.data.values[k]))
    && (st.current.Some? ==> st.current.value in st.data.values)
  }

  /** `list key item`: append to the items of `key`, creating them on first use. */
  function AppendItem(block: Block, key: string, item: string): Result<Block, ParseError> {
    var was: Option<FieldValue> := Get(block, key);
    match was
    case None => Ok(Put(block, key, Items([item])))
    case Some(Items(xs)) => Ok(Put(block, key, Items(xs + [item])))
    case Some(Scalar(_)) => Err(AppendToText)
  }

  /** A `config <type> <name>` line: open (or reopen, replacing it) the block "<type> <name>". */
  function Declare(st: ParseState, parts: seq<string>): (r: ParseState)
    requires WellFormed(st) && |parts| >= 3
    ensures WellFormed(r)
  {
    var name := Strip(parts[2], Quotes);
    var key := parts[1] + " " + name;
    ParseState(Put(st.data, key, Seed(parts[1], name)), Some(key))
  }

  /** An `option <key> <value...>` line inside a block: set the field. */
  function SetOption(st: ParseState, key: string, value: string): (r: ParseState)
    requires WellFormed(st) && st.current.Some?
    ensures WellFormed(r)
  {
    var cur := st.current.value;
    ParseState(Put(st.data, cur, Put(st.data.values[cur], key, Scalar(value))), st.current)
  }

  /** A `list <key> <value...>` line inside a block: append to the field's items. */
  function AddItem(st: ParseState, key: string, value: string): (r: Result<ParseState, ParseError>)
    requires WellFormed(st) && st.current.Some?
    ensures r.Ok? ==> WellFormed(r.value)
  {
    var cur := st.current.value;
    match AppendItem(st.data.values[cur], key, value)
    case Err(e) => Err(e)
    case Ok(b) => Ok(ParseState(Put(st.data, cur, b), st.current))
  }

  /** One line of the file, classified by prefix as the source's loop body does. */
  function Step(st: ParseState, line: string): (r: Result<ParseState, ParseError>)
    requires WellFormed(st)
    ensures r.Ok? ==> WellFormed(r.value)
  {
    var l := Strip(line, Spaces);
    var parts := Words(l);
    if StartsWith(l, "config") then
      if |parts| < 3 then Err(MissingToken) else Ok(Declare(st, parts))
    else if StartsWith(l, "option") then
      if st.current.None? then Ok(st)
      else if |parts| < 2 then Err(MissingToken)
      else Ok(SetOption(st, parts[1], EntryValue(parts)))
    else if StartsWith(l, "list") then
      if st.current.None? then Ok(st)
      else if |parts| < 2 then Err(MissingToken)
      else AddItem(st, parts[1], EntryValue(parts))
    else Ok(st)
  }

  /** The parser over the first lines of the file; it stops at the first exception. */
  function Run(lines: seq<string>): (r: Result<ParseState, ParseError>)
    ensures r.Ok? ==> WellFormed(r.value)
  {
    if lines == [] then Ok(ParseState(Empty(), None))
    else
      match Run(lines[..|lines| - 1])
      case Err(e) => Err(e)
      case Ok(st) => Step(st, lines[|lines| - 1])
  }

  /** `DataSenderReader.parse` as a function of the file's lines. */
  function ParseConfig(lines: seq<string>): (r: Result<Config, ParseError>)
    ensures r.Ok? ==> forall k :: k in r.value.values ==> BlockOk(r.value.values[k])
  {
    match Run(lines)
    case Ok(st) => Ok(st.data)
    case Err(e) => Err(e)
  }

  lemma RunSnoc(lines: seq<string>, line: string)
    ensures Run(lines + [line]) == match Run(lines)
                                   case Err(e) => Err(e)
                                   case Ok(st) => Step(st, line)
  {
    assert (lines + [line])[..|lines|] == lines;
  }

  /** Once a line raises, the rest of the file is never read: the error is the result. */
  lemma {:induction false} ErrorIsFinal(lines: seq<string>, more: seq<string>)
    requires Run(lines).Err?
    ensures Run(lines + more) == Run(lines)
  {
    if more != [] {
      var init := more[..|more| - 1];
      ErrorIsFinal(lines, init);
      assert more == init + [more[|more| - 1]];
      assert lines + more == (lines + init) + [more[|more| - 1]];
      RunSnoc(lines + init, more[|more| - 1]);
    } else {
      assert lines + more == lines;
    }
  }

  /** Both levels of the mapping are dictionaries: every key listed once, in `keys` order. */
  ghost predicate NestedValid(data: Config) {
    Valid(data) && forall k :: k in data.values ==> Valid(data.values[k])
  }

  lemma StoreBlockValid(data: Config, key: string, b: Block)
    requires NestedValid(data) && Valid(b)
    ensures NestedValid(Put(data, key, b))
  {
    PutValid(data, key, b);
  }

  /** Every line keeps both levels of the mapping dictionaries. */
  lemma StepValid(st: ParseState, line: string)
    requires WellFormed(st) && NestedValid(st.data) && Step(st, line).Ok?
    ensures NestedValid(Step(st, line).value.data)
  {
    var l := Strip(line, Spaces);
    var parts := Words(l);
    if StartsWith(l, "config") {
      var name := Strip(parts[2], Quotes);
      StoreBlockValid(st.data, parts[1] + " " + name, Seed(parts[1], name));
    } else if StartsWith(l, "option") || StartsWith(l, "list") {
      if st.current.Some? {
        var cur := st.current.value;
        var block := st.data.values[cur];
        var value := EntryValue(parts);
        if StartsWith(l, "option") {
          PutValid(block, parts[1], Scalar(value));
          StoreBlockValid(st.data, cur, Put(block, parts[1], Scalar(value)));
        } else {
          var b := AppendItem(block, parts[1], value).value;
          PutValid(block, parts[1], b.values[parts[1]]);
          StoreBlockValid(st.data, cur, b);
        }
      }
    }
  }

  /** A parsed file is a dictionary of dictionaries: no block and no field is listed twice. */
  lemma {:induction false} ParsedIsNestedDict(lines: seq<string>)
    requires ParseConfig(lines).Ok?
    ensures NestedValid(ParseConfig(lines).value)
    decreases |lines|
  {
    if lines != [] {
      var init := lines[..|lines| - 1];
      ParsedIsNestedDict(init);
      StepValid(Run(init).value, lines[|lines| - 1]);
    }
  }

  /** Every block of a parsed file is a dictionary holding `__type__` and `__name__`. */
  lemma ParsedBlocksKeepSyntheticFields(lines: seq<string>, key: string)
    requires ParseConfig(lines).Ok? && key in ParseConfig(lines).value.values
    ensures var b := ParseConfig(lines).value.values[key];
      TypeField in b.values && NameField in b.values
  {
  }

  /**
   * A `config <type> <name>` line opens the block "<type> <name>" with only the two synthetic
   * fields, the name stripped of quotes at both ends. A block declared again is replaced
   * outright and keeps its place; a new one goes last; no other block changes.
   */
  lemma ConfigLineOpensBlock(prior: seq<string>, line: string)
    requires Run(prior).Ok?
    requires StartsWith(Strip(line, Spaces), "config") && |Words(Strip(line, Spaces))| >= 3
    ensures var parts := Words(Strip(line, Spaces));
            var name := Strip(parts[2], Quotes);
            var key := parts[1] + " " + name;
            var before := Run(prior).value.data;
            var after := Run(prior + [line]);
      && after.Ok?
      && after.value.current == Some(key)
      && after.value.data.values == before.values[key := Seed(parts[1], name)]
      && after.value.data.keys == (if key in before.values then before.keys else before.keys + [key])
      && (name == [] || (name[0] != '\'' && name[|name| - 1] != '\''))
  {
    RunSnoc(prior, line);
    StripSpec(Words(Strip(line, Spaces))[2], Quotes);
  }

  /** A `config` line with fewer than three tokens raises IndexError. */
  lemma ShortConfigLineFails(prior: seq<string>, line: string)
    requires Run(prior).Ok?
    requires StartsWith(Strip(line, Spaces), "config") && |Words(Strip(line, Spaces))| < 3
    ensures Run(prior + [line]) == Err(MissingToken)
  {
    RunSnoc(prior, line);
  }

  /**
   * Inside a block, `option <key> <value...>` sets the field to the joined, unquoted value,
   * overwriting any earlier value; no other field, block or block position changes.
   */
  lemma OptionLineSetsField(prior: seq<string>, line: string)
    requires Run(prior).Ok? && Run(prior).value.current.Some?
    requires StartsWith(Strip(line, Spaces), "option") && |Words(Strip(line, Spaces))| >= 2
    ensures var parts := Words(Strip(line, Spaces));
            var st := Run(prior).value;
            var cur := st.current.value;
            var after := Run(prior + [line]);
      && after.Ok?
      && after.value.current == st.current
      && after.value.data.keys == st.data.keys
      && after.value.data.values
         == st.data.values[cur := Put(st.data.values[cur], parts[1], Scalar(EntryValue(parts)))]
  {
    RunSnoc(prior, line);
    assert !StartsWith(Strip(line, Spaces), "config");
  }

  /**
   * Inside a block, `list <key> <value...>` appends the value to the field's items, creating
   * them on first use, so items keep line order; no other field, block or position changes.
   */
  lemma ListLineAppendsItem(prior: seq<string>, line: string)
    requires Run(prior).Ok? && Run(prior).value.current.Some?
    requires StartsWith(Strip(line, Spaces), "list") && |Words(Strip(line, Spaces))| >= 2
    requires var st := Run(prior).value;
      Get(st.data.values[st.current.value], Words(Strip(line, Spaces))[1]).Some? ==>
      Get(st.data.values[st.current.value], Words(Strip(line, Spaces))[1]).value.Items?
    ensures var parts := Words(Strip(line, Spaces));
            var st := Run(prior).value;
            var cur := st.current.value;
            var block := st.data.values[cur];
            var was := Get(block, parts[1]);
            var after := Run(prior + [line]);
      && after.Ok?
      && after.value.current == st.current
      && after.value.data.keys == st.data.keys
      && after.value.data.values == st.data.values[cur := Put(block, parts[1],
           Items(if was.None? then [EntryValue(parts)] else was.value.list + [EntryValue(parts)]))]
  {
    ListLineIsAddItem(prior, line);
  }

  /** Inside a block, `list <key> ...` onto a field that holds text raises AttributeError. */
  lemma ListLineOntoTextFails(prior: seq<string>, line: string)
    requires Run(prior).Ok? && Run(prior).value.current.Some?
    requires StartsWith(Strip(line, Spaces), "list") && |Words(Strip(line, Spaces))| >= 2
    requires var st := Run(prior).value;
      Get(st.data.values[st.current.value], Words(Strip(line, Spaces))[1]).Some? &&
      Get(st.data.values[st.current.value], Words(Strip(line, Spaces))[1]).value.Scalar?
    ensures Run(prior + [line]) == Err(AppendToText)
  {
    ListLineIsAddItem(prior, line);
  }

  lemma ListLineIsAddItem(prior: seq<string>, line: string)
    requires Run(prior).Ok? && Run(prior).value.current.Some?
    requires StartsWith(Strip(line, Spaces), "list") && |Words(Strip(line, Spaces))| >= 2
    ensures var parts := Words(Strip(line, Spaces));
      Run(prior + [line]) == AddItem(Run(prior).value, parts[1], EntryValue(parts))
  {
    RunSnoc(prior, line);
    ListIsNotConfigOrOption(Strip(line, Spaces));
  }

  lemma ListIsNotConfigOrOption(l: string)
    requires StartsWith(l, "list")
    ensures !StartsWith(l, "config") && !StartsWith(l, "option")
  {
    assert l[0] == l[..4][0] == 'l';
  }

  /** Inside a block, an `option` or `list` line with fewer than two tokens raises IndexError. */
  lemma ShortEntryLineFails(prior: seq<string>, line: string)
    requires Run(prior).Ok? && Run(prior).value.current.Some?
    requires StartsWith(Strip(line, Spaces), "option") || StartsWith(Strip(line, Spaces), "list")
    requires !StartsWith(Strip(line, Spaces), "config")
    requires |Words(Strip(line, Spaces))| < 2
    ensures Run(prior + [line]) == Err(MissingToken)
  {
    RunSnoc(prior, line);
  }

  /**
   * Lines that start with none of `config`/`option`/`list` (blank lines, comments), and
   * `option`/`list` lines before the first `config` line, whatever their tokens, change nothing.
   */
  lemma IgnoredLineChangesNothing(prior: seq<string>, line: string)
    requires Run(prior).Ok?
    requires var l := Strip(line, Spaces);
      || (!StartsWith(l, "config") && !StartsWith(l, "option") && !StartsWith(l, "list"))
      || (!StartsWith(l, "config") && Run(prior).value.current.None?)
    ensures Run(prior + [line]) == Run(prior)
  {
    RunSnoc(prior, line);
  }

  // The block fields that the query `**/<field>` finds: one per listed block that has the
  // field, in the order of `keys`.
  function MatchesIn(cfg: Config, keys: seq<string>, field: string): (ms: seq<FieldValue>)
    ensures |ms| <= |keys|
  {
    if keys == [] then []
    else
      (if keys[0] in cfg.values && field in cfg.values[keys[0]].values
       then [cfg.values[keys[0]].values[field]] else [])
      + MatchesIn(cfg, keys[1..], field)
  }

  function Matches(cfg: Config, field: string): seq<FieldValue> {
    MatchesIn(cfg, cfg.keys, field)
  }

  /** What `search` keeps: the last match, or "" when there is none. */
  function LastMatch(cfg: Config, field: string): FieldValue {
    var ms := Matches(cfg, field);
    if ms == [] then Scalar("") else ms[|ms| - 1]
  }

  /** Whether the block listed under `key` has the field. */
  predicate HasField(cfg: Config, key: string, field: string) {
    key in cfg.values && field in cfg.values[key].values
  }

  /** There is a match exactly when some listed block has the field. */
  lemma {:induction false} MatchesEmpty(cfg: Config, keys: seq<string>, field: string)
    ensures MatchesIn(cfg, keys, field) == [] <==> forall i :: 0 <= i < |keys| ==> !HasField(cfg, keys[i], field)
  {
    if keys != [] {
      MatchesEmpty(cfg, keys[1..], field);
      assert forall i :: 1 <= i < |keys| ==> keys[1..][i - 1] == keys[i];
    }
  }

  /** The last match among listed blocks is the field of the last block that has it. */
  lemma {:induction false} LastMatchInIsLastBlock(cfg: Config, keys: seq<string>, field: string, i: nat)
    requires i < |keys| && HasField(cfg, keys[i], field)
    requires forall j :: i < j < |keys| ==> !HasField(cfg, keys[j], field)
    ensures MatchesIn(cfg, keys, field) != []
    ensures var ms := MatchesIn(cfg, keys, field); ms[|ms| - 1] == cfg.values[keys[i]].values[field]
  {
    var tail := keys[1..];
    assert forall j :: 1 <= j < |keys| ==> tail[j - 1] == keys[j];
    if i == 0 {
      MatchesEmpty(cfg, tail, field);
    } else {
      LastMatchInIsLastBlock(cfg, tail, field, i - 1);
    }
  }

  /**
   * `search` yields the field of the last block, in declaration order, that has it, and ""
   * when no block has it.
   */
  lemma LastMatchIsLastBlock(cfg: Config, field: string)
    ensures (forall i :: 0 <= i < |cfg.keys| ==> !HasField(cfg, cfg.keys[i], field)) ==> LastMatch(cfg, field) == Scalar("")
    ensures forall i ::
      (0 <= i < |cfg.keys| && HasField(cfg, cfg.keys[i], field) &&
       (forall j :: i < j < |cfg.keys| ==> !HasField(cfg, cfg.keys[j], field))) ==>
      LastMatch(cfg, field) == cfg.values[cfg.keys[i]].values[field]
  {
    MatchesEmpty(cfg, cfg.keys, field);
    forall i | 0 <= i < |cfg.keys| && HasField(cfg, cfg.keys[i], field)
      && (forall j :: i < j < |cfg.keys| ==> !HasField(cfg, cfg.keys[j], field))
      ensures LastMatch(cfg, field) == cfg.values[cfg.keys[i]].values[field]
    {
      LastMatchInIsLastBlock(cfg, cfg.keys, field, i);
    }
  }

  /**
   * `DataSenderReader`: the file's lines (the constructor's check that the file opens is the
   * caller's obligation to supply them) and the parsed mapping, cached in `config`.
   */
  class DataSenderReader {
    const lines: seq<string>
    var config: Option<Config>
    ghost var parses: nat

    constructor (lines: seq<string>)
      ensures this.lines == lines && config == None && parses == 0
    {
      this.lines := lines;
      config := None;
      parses := 0;
    }

    /** Python's truth value of `self.config`: set and not empty. */
    predicate Cached()
      reads this
    {
      config.Some? && config.value.values != map[]
    }

    /** `parse`: one pass over the lines; on success the mapping is stored in `config`. */
    method Parse() returns (r: Result<Config, ParseError>)
      modifies this
      ensures r == ParseConfig(lines)
      ensures config == if r.Ok? then Some(r.value) else old(config)
      ensures parses == old(parses) + 1
    {
      parses := parses + 1;
      var data: Config := Empty();
      var current: Option<string> := None;
      var i := 0;
      while i < |lines|
        invariant 0 <= i <= |lines|
        invariant Run(lines[..i]) == Ok(ParseState(data, current))
        invariant parses == old(parses) + 1 && config == old(config)
      {
        RunSnoc(lines[..i], lines[i]);
        assert lines[..i + 1] == lines[..i] + [lines[i]];
        assert lines[..i + 1] + lines[i + 1..] == lines;
        ghost var st := ParseState(data, current);
        var line := Strip(lines[i], Spaces);
        if StartsWith(line, "config") {
          var parts := Words(line);
          if |parts| < 3 {
            ErrorIsFinal(lines[..i + 1], lines[i + 1..]);
            return Err(MissingToken);
          }
          var blockName := Strip(parts[2], Quotes);
          current := Some(parts[1] + " " + blockName);
          data := Put(data, current.value, Seed(parts[1], blockName));
          assert Step(st, lines[i]) == Ok(ParseState(data, current));
        } else if StartsWith(line, "option") {
          if current.Some? {
            var parts := Words(line);
            if |parts| < 2 {
              ErrorIsFinal(lines[..i + 1], lines[i + 1..]);
              return Err(MissingToken);
            }
            var block := data.values[current.value];
            data := Put(data, current.value, Put(block, parts[1], Scalar(EntryValue(parts))));
            assert Step(st, lines[i]) == Ok(SetOption(st, parts[1], EntryValue(parts)));
          }
        } else if StartsWith(line, "list") {
          if current.Some? {
            var parts := Words(line);
            if |parts| < 2 {
              ErrorIsFinal(lines[..i + 1], lines[i + 1..]);
              return Err(MissingToken);
            }
            var block := data.values[current.value];
            var item := EntryValue(parts);
            assert Step(st, lines[i]) == AddItem(st, parts[1], item);
            var was: Option<FieldValue> := Get(block, parts[1]);
            match was {
              case None =>
                data := Put(data, current.value, Put(block, parts[1], Items([item])));
              case Some(Items(xs)) =>
                data := Put(data, current.value, Put(block, parts[1], Items(xs + [item])));
              case Some(Scalar(_)) =>
                ErrorIsFinal(lines[..i + 1], lines[i + 1..]);
                return Err(AppendToText);
            }
          }
        }
        i := i + 1;
      }
      assert lines[..|lines|] == lines;
      config := Some(data);
      r := Ok(data);
    }

    // `search("**/<field>")`: parses first unless a non-empty mapping is cached, then keeps
    // the last match found, "" when there is none.
    method Search(field: string) returns (r: Result<FieldValue, ParseError>)
      modifies this
      ensures old(Cached()) ==> config == old(config) && parses == old(parses)
      ensures old(Cached()) ==> r == Ok(LastMatch(config.value, field))
      ensures !old(Cached()) ==> parses == old(parses) + 1
      ensures !old(Cached()) && ParseConfig(lines).Ok? ==>
        config == Some(ParseConfig(lines).value) && r == Ok(LastMatch(ParseConfig(lines).value, field))
      ensures !old(Cached()) && ParseConfig(lines).Err? ==>
        config == old(config) && r == Err(ParseConfig(lines).error)
    {
      if !Cached() {
        var p := Parse();
        if p.Err? {
          return Err(p.error);
        }
      }
      var found := Matches(config.value, field);
      var value := Scalar("");
      for k := 0 to |found|
        invariant value == if k == 0 then Scalar("") else found[k - 1]
      {
        value := found[k];
      }
      r := Ok(value);
    }
  }
}
