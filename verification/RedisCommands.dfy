/** Which Redis commands block, and for how long, read from the command's own words. */
module RedisCommands {
  import opened Wrappers

  /** float() of a token: not a number, infinite or NaN, or a number. */
  datatype Number = NotANumber | NotFinite | Finite(value: real)

  /** A command argument; `number` is what float() makes of it, `isBool` marks Python booleans. */
  datatype Token = Word(text: string, number: Number) | Numeric(number: Number) | Boolean | Other

  function UpperChar(c: char): char {
    if 'a' <= c <= 'z' then (c as int - 'a' as int + 'A' as int) as char else c
  }

  function Upper(text: string): string {
    if text == "" then "" else [UpperChar(text[0])] + Upper(text[1..])
  }

  /** `name(value)`: the upper-case spelling; arguments that are not words never spell a keyword. */
  function Spelling(token: Token): string {
    if token.Word? then Upper(token.text) else ""
  }

  function Seconds(token: Token, scale: real): Option<real>
    requires scale > 0.0
  {
    if (token.Word? || token.Numeric?) && token.number.Finite? && token.number.value >= 0.0
    then Some(token.number.value / scale) else None
  }

  const POPS: set<string> := {"BLPOP", "BRPOP", "BRPOPLPUSH", "BLMOVE", "BZPOPMIN", "BZPOPMAX"}
  const MPOPS: set<string> := {"BLMPOP", "BZMPOP"}

  /** `None` for an ordinary or invalid command, else the seconds it may block; zero means for ever. */
  method BlockingTimeout(parts: seq<Token>) returns (timeout: Option<real>)
    ensures timeout == Timeout(parts)
  {
    if parts == [] {
      return None;
    }
    var command := Spelling(parts[0]);
    var index := |parts| - 1;
    var scale := 1.0;
    if command in POPS {
    } else if command in MPOPS {
      index := 1;
    } else if command in {"WAIT", "WAITAOF"} {
      scale := 1000.0;
    } else if command in {"XREAD", "XREADGROUP"} {
      scale := 1000.0;
      index := if command == "XREADGROUP" then 4 else 1;
      var found := false;
      while index < |parts| && !found
        invariant 0 <= index
        invariant !found ==> FindBlock(parts, if command == "XREADGROUP" then 4 else 1) == FindBlock(parts, index)
        invariant found ==> FindBlock(parts, if command == "XREADGROUP" then 4 else 1) == Some(index)
        decreases |parts| - index, !found
      {
        var option := Spelling(parts[index]);
        if option == "BLOCK" {
          index := index + 1;
          found := true;
        } else if option == "COUNT" {
          index := index + 2;
        } else if option == "NOACK" {
          index := index + 1;
        } else {
          return None;
        }
      }
      if !found {
        return None;
      }
    } else {
      return None;
    }
    if index >= |parts| {
      return None;
    }
    return Seconds(parts[index], scale);
  }

  /** Where the value of the BLOCK option is, reading options from `index` on. */
  function FindBlock(parts: seq<Token>, index: nat): Option<nat>
    decreases |parts| - index
  {
    if index >= |parts| then None
    else
      var option := Spelling(parts[index]);
      if option == "BLOCK" then Some(index + 1)
      else if option == "COUNT" then FindBlock(parts, index + 2)
      else if option == "NOACK" then FindBlock(parts, index + 1)
      else None
  }

  function Timeout(parts: seq<Token>): Option<real> {
    if parts == [] then None
    else
      var command := Spelling(parts[0]);
      if command in POPS then Seconds(parts[|parts| - 1], 1.0)
      else if command in MPOPS then (if |parts| > 1 then Seconds(parts[1], 1.0) else None)
      else if command in {"WAIT", "WAITAOF"} then Seconds(parts[|parts| - 1], 1000.0)
      else if command in {"XREAD", "XREADGROUP"} then
        match FindBlock(parts, if command == "XREADGROUP" then 4 else 1)
        case None => None
        case Some(at) => if at < |parts| then Seconds(parts[at], 1000.0) else None
      else None
  }

  // ---------- the parser inverts a printer ----------

  /** An option of XREAD or XREADGROUP, with its keyword as the caller spelled it. */
  datatype ReadOption =
    | Count(keyword: Token, value: Token)
    | NoAck(keyword: Token)
    | Block(keyword: Token, milliseconds: Token)

  predicate Spelled(option: ReadOption) {
    match option
    case Count(keyword, _) => Spelling(keyword) == "COUNT"
    case NoAck(keyword) => Spelling(keyword) == "NOACK"
    case Block(keyword, _) => Spelling(keyword) == "BLOCK"
  }

  function PrintOption(option: ReadOption): seq<Token> {
    match option
    case Count(keyword, value) => [keyword, value]
    case NoAck(keyword) => [keyword]
    case Block(keyword, milliseconds) => [keyword, milliseconds]
  }

  function PrintOptions(options: seq<ReadOption>): seq<Token> {
    if options == [] then [] else PrintOption(options[0]) + PrintOptions(options[1..])
  }

  function FirstBlock(options: seq<ReadOption>): Option<Token> {
    if options == [] then None
    else if options[0].Block? then Some(options[0].milliseconds)
    else FirstBlock(options[1..])
  }

  /** A reading command: the command word, XREADGROUP's GROUP, group and consumer, the options, STREAMS, keys and ids. */
  datatype Read = Read(command: Token, group: seq<Token>, options: seq<ReadOption>, streams: Token, keysAndIds: seq<Token>)

  predicate WellFormed(read: Read) {
    && ((Spelling(read.command) == "XREAD" && read.group == []) || (Spelling(read.command) == "XREADGROUP" && |read.group| == 3))
    && (forall i :: 0 <= i < |read.options| ==> Spelled(read.options[i]))
    && Spelling(read.streams) == "STREAMS"
  }

  function Print(read: Read): seq<Token> {
    [read.command] + read.group + PrintOptions(read.options) + [read.streams] + read.keysAndIds
  }

  lemma {:induction false} FindPrintedBlock(parts: seq<Token>, index: nat, options: seq<ReadOption>)
    requires index + |PrintOptions(options)| < |parts|
    requires parts[index..index + |PrintOptions(options)|] == PrintOptions(options)
    requires forall i :: 0 <= i < |options| ==> Spelled(options[i])
    requires Spelling(parts[index + |PrintOptions(options)|]) == "STREAMS"
    ensures match FirstBlock(options)
            case None => FindBlock(parts, index).None?
            case Some(value) => FindBlock(parts, index).Some? && FindBlock(parts, index).value < |parts| &&
                                parts[FindBlock(parts, index).value] == value
    decreases |options|
  {
    if options != [] {
      var one := PrintOption(options[0]);
      var printed := PrintOptions(options);
      assert parts[index] == printed[0] == one[0];
      assert |one| == 2 ==> parts[index + 1] == printed[1] == one[1];
      if !options[0].Block? {
        assert parts[index + |one|..index + |printed|] == printed[|one|..];
        FindPrintedBlock(parts, index + |one|, options[1..]);
      }
    }
  }

  /**
   Whatever the groups, consumers, counts, keys and ids are called, the timeout of a printed
   reading command is the value of its first BLOCK option, in seconds, and there is none
   when it has no BLOCK option.
   */
  lemma ParserInvertsPrinter(read: Read)
    requires WellFormed(read)
    ensures Timeout(Print(read)) ==
      match FirstBlock(read.options)
      case None => None
      case Some(value) => Seconds(value, 1000.0)
  {
    var parts, index := Print(read), 1 + |read.group|;
    PrintedOptions(read, index);
    FindPrintedBlock(parts, index, read.options);
    ReadTimeout(parts, index);
  }

  lemma ReadTimeout(parts: seq<Token>, index: nat)
    requires parts != [] && Spelling(parts[0]) in {"XREAD", "XREADGROUP"} && index == if Spelling(parts[0]) == "XREADGROUP" then 4 else 1
    ensures Timeout(parts) ==
      match FindBlock(parts, index)
      case None => None
      case Some(at) => if at < |parts| then Seconds(parts[at], 1000.0) else None
  {
  }

  lemma PrintedOptions(read: Read, index: nat)
    requires index == 1 + |read.group|
    ensures var parts, printed := Print(read), PrintOptions(read.options);
      index + |printed| < |parts| && parts[0] == read.command && parts[index..index + |printed|] == printed && parts[index + |printed|] == read.streams
  {
  }

  // ---------- the other commands ----------

  /** Two words spell the same just when they differ in the case of letters only. */
  lemma {:induction false} SpelledAlike(a: string, b: string)
    ensures Upper(a) == Upper(b) <==>
      |a| == |b| && forall i :: 0 <= i < |a| ==>
        a[i] == b[i] || ('a' <= a[i] <= 'z' && a[i] as int - 'a' as int == b[i] as int - 'A' as int) ||
        ('a' <= b[i] <= 'z' && b[i] as int - 'a' as int == a[i] as int - 'A' as int)
  {
    if a != "" && b != "" {
      SpelledAlike(a[1..], b[1..]);
      assert Upper(a)[0] == UpperChar(a[0]) && Upper(a)[1..] == Upper(a[1..]);
      assert Upper(b)[0] == UpperChar(b[0]) && Upper(b)[1..] == Upper(b[1..]);
      assert forall i :: 0 < i < |a| ==> a[i] == a[1..][i - 1];
      assert forall i :: 0 < i < |b| ==> b[i] == b[1..][i - 1];
    }
  }

  /** The argument is a number of at least zero: that many seconds, or as many of the smaller unit. */
  lemma SecondsExactly(token: Token, scale: real)
    requires scale > 0.0
    ensures Seconds(token, scale).Some? <==> (token.Word? || token.Numeric?) && token.number.Finite? && token.number.value >= 0.0
    ensures Seconds(token, scale).Some? ==> Seconds(token, scale).value >= 0.0 && Seconds(token, scale).value * scale == token.number.value
  {
  }

  /** A popping or moving command waits as many seconds as its last argument says, whatever its keys are called. */
  lemma PopsReadTheirLast(command: Token, arguments: seq<Token>, timeout: Token)
    requires Spelling(command) in {"BLPOP", "BRPOP", "BRPOPLPUSH", "BLMOVE", "BZPOPMIN", "BZPOPMAX"}
    ensures Timeout([command] + arguments + [timeout]) == Seconds(timeout, 1.0)
  {
    var parts := [command] + arguments + [timeout];
    assert parts[0] == command && parts[|parts| - 1] == timeout;
  }

  /** Its successor for several keys waits as many seconds as its first argument says. */
  lemma MultiPopsReadTheirFirst(command: Token, timeout: Token, arguments: seq<Token>)
    requires Spelling(command) in {"BLMPOP", "BZMPOP"}
    ensures Timeout([command, timeout] + arguments) == Seconds(timeout, 1.0) && Timeout([command]).None?
  {
    var parts := [command, timeout] + arguments;
    assert parts[0] == command && parts[1] == timeout;
  }

  /** WAIT and WAITAOF wait as many milliseconds as their last argument says. */
  lemma WaitsReadTheirLast(command: Token, arguments: seq<Token>, timeout: Token)
    requires Spelling(command) in {"WAIT", "WAITAOF"}
    ensures Timeout([command] + arguments + [timeout]) == Seconds(timeout, 1000.0)
  {
    var parts := [command] + arguments + [timeout];
    assert parts[0] == command && parts[|parts| - 1] == timeout;
  }

  /** No other command blocks, however it is called. */
  lemma NothingElseBlocks(parts: seq<Token>)
    requires Timeout(parts).Some?
    ensures parts != [] && Spelling(parts[0]) in
      {"BLPOP", "BRPOP", "BRPOPLPUSH", "BLMOVE", "BZPOPMIN", "BZPOPMAX", "BLMPOP", "BZMPOP", "WAIT", "WAITAOF", "XREAD", "XREADGROUP"}
  {
  }
}
