/** The serial character machine against a specification that reads the whole input at once. */
module Serial {
  import opened Platform
  import opened Settings
  import opened Node
  import opened NodeInvariants
  import opened Visible

  // ---------- The specification ----------

  /** Complete commands, text for the other node, and the command that is still being typed, if any. */
  datatype Parsed = Parsed(commands: seq<seq<Byte>>, data: seq<Byte>, open: bool, partial: seq<Byte>)

  /** Where `c` first occurs in `s`, or the length of `s`. */
  function IndexOf(s: seq<Byte>, c: Byte): (i: nat)
    ensures i <= |s|
  {
    if s == [] || s[0] == c then 0 else 1 + IndexOf(s[1..], c)
  }

  /** The characters of a command line that count. */
  function Kept(s: seq<Byte>): seq<Byte> {
    if s == [] then []
    else (if s[0] == '\r' as int || s[0] == '!' as int then [] else [s[0]]) + Kept(s[1..])
  }

  function Truncated(s: seq<Byte>): seq<Byte> {
    if |s| <= 128 then s else s[..128]
  }

  /** Text up to a '!' is data; from there to the end of the line is a command. */
  function Parse(open: bool, partial: seq<Byte>, s: seq<Byte>): Parsed
    decreases |s|
  {
    if open then
      var i := IndexOf(s, '\n' as int);
      var text := Truncated(partial + Kept(s[..i]));
      if i == |s| then Parsed([], [], true, text)
      else
        var rest := Parse(false, [], s[i + 1..]);
        rest.(commands := [text] + rest.commands)
    else
      var i := IndexOf(s, '!' as int);
      if i == |s| then Parsed([], s, false, partial)
      else
        var rest := Parse(true, partial, s[i + 1..]);
        rest.(data := s[..i] + rest.data)
  }

  function ExecuteAll(l: Link, commands: seq<seq<Byte>>): Link
    decreases |commands|
  {
    if commands == [] then l else ExecuteAll(ExecuteCommand(l, commands[0]), commands[1..])
  }

  function EncodeAll(data: seq<Byte>): seq<Byte> {
    if data == [] then [] else Encode(data[0]) + EncodeAll(data[1..])
  }

  /** Commands act on the link alone, in order; data goes to the transmit buffer alone, behind one type byte. */
  function Applied(n: Node, p: Parsed): Node {
    n.(link := ExecuteAll(n.link, p.commands),
       tx := if p.data == [] then n.tx else Opened(n.tx) + EncodeAll(p.data),
       commandMode := p.open,
       cmd := p.partial)
  }

  // ---------- Refinement ----------

  lemma ParseCommandChar(partial: seq<Byte>, s: seq<Byte>)
    requires s != [] && s[0] != NEWLINE && |partial| <= MAX_MESSAGE_LEN
    ensures var partial' :=
        if s[0] == RETURN || s[0] == BANG || |partial| >= MAX_MESSAGE_LEN then partial else partial + [s[0]];
      Parse(true, partial, s) == Parse(true, partial', s[1..])
  {
    var c, rest := s[0], s[1..];
    var i := IndexOf(rest, NEWLINE);
    var partial' := if c == RETURN || c == BANG || |partial| >= MAX_MESSAGE_LEN then partial else partial + [c];
    assert IndexOf(s, NEWLINE) == i + 1;
    assert s[..i + 1][1..] == rest[..i];
    assert Truncated(partial + Kept(s[..i + 1])) == Truncated(partial' + Kept(rest[..i]));
    assert i < |rest| ==> s[i + 2..] == rest[i + 1..];
  }

  lemma ParseDataChar(partial: seq<Byte>, s: seq<Byte>)
    requires s != [] && s[0] != BANG
    ensures var p := Parse(false, partial, s[1..]);
      Parse(false, partial, s) == p.(data := [s[0]] + p.data)
  {
    var rest := s[1..];
    var i := IndexOf(rest, BANG);
    assert IndexOf(s, BANG) == i + 1;
    if i < |rest| {
      assert s[i + 2..] == rest[i + 1..];
      assert s[..i + 1] == [s[0]] + rest[..i];
    } else {
      assert s == [s[0]] + rest;
    }
  }

  /** The end of a command line executes the command and hands the rest of the input over to data. */
  lemma LineEndRefines(n: Node, s: seq<Byte>)
    requires s != [] && s[0] == NEWLINE && n.commandMode && |n.cmd| <= MAX_MESSAGE_LEN
    ensures var m := SerialChar(n, s[0]);
      Applied(n, Parse(n.commandMode, n.cmd, s)) == Applied(m, Parse(m.commandMode, m.cmd, s[1..]))
  {
    hide ExecuteCommand;
    assert n.cmd + Kept(s[..0]) == n.cmd;
    var rest := Parse(false, [], s[1..]);
    assert ([n.cmd] + rest.commands)[1..] == rest.commands;
  }

  lemma DataCharRefines(n: Node, s: seq<Byte>)
    requires s != [] && s[0] != BANG && !n.commandMode
    ensures var m := SerialChar(n, s[0]);
      Applied(n, Parse(n.commandMode, n.cmd, s)) == Applied(m, Parse(m.commandMode, m.cmd, s[1..]))
  {
    hide ExecuteCommand;
    hide Encode;
    ParseDataChar(n.cmd, s);
    hide Parse;
    var rest := Parse(false, n.cmd, s[1..]).data;
    var tx := Opened(n.tx) + Encode(s[0]);
    assert ([s[0]] + rest)[1..] == rest;
    assert Opened(n.tx) + (Encode(s[0]) + EncodeAll(rest)) == tx + EncodeAll(rest);
    if rest == [] {
      assert tx + [] == tx;
    }
  }

  lemma CommandCharRefines(n: Node, s: seq<Byte>)
    requires s != [] && s[0] != NEWLINE && n.commandMode && |n.cmd| <= MAX_MESSAGE_LEN
    ensures var m := SerialChar(n, s[0]);
      Applied(n, Parse(n.commandMode, n.cmd, s)) == Applied(m, Parse(m.commandMode, m.cmd, s[1..]))
  {
    ParseCommandChar(n.cmd, s);
    hide Parse;
    hide ExecuteAll;
    hide EncodeAll;
  }

  lemma BangRefines(n: Node, s: seq<Byte>)
    requires s != [] && s[0] == BANG && !n.commandMode && |n.cmd| <= MAX_MESSAGE_LEN
    ensures var m := SerialChar(n, s[0]);
      Applied(n, Parse(n.commandMode, n.cmd, s)) == Applied(m, Parse(m.commandMode, m.cmd, s[1..]))
  {
    hide ExecuteAll;
    hide EncodeAll;
    var rest := Parse(true, n.cmd, s[1..]);
    assert s[..0] + rest.data == rest.data;
    assert Parse(false, n.cmd, s) == rest;
  }

  /** Consuming one character leaves what the specification says of the rest of the input. */
  lemma CharRefines(n: Node, s: seq<Byte>)
    requires s != [] && |n.cmd| <= MAX_MESSAGE_LEN
    ensures var m := SerialChar(n, s[0]);
      Applied(n, Parse(n.commandMode, n.cmd, s)) == Applied(m, Parse(m.commandMode, m.cmd, s[1..]))
  {
    hide SerialChar;
    hide Applied;
    hide Parse;
    if n.commandMode && s[0] == NEWLINE {
      LineEndRefines(n, s);
    } else if n.commandMode {
      CommandCharRefines(n, s);
    } else if s[0] == BANG {
      BangRefines(n, s);
    } else {
      DataCharRefines(n, s);
    }
  }

  lemma CommandStaysBounded(n: Node, c: Byte)
    requires |n.cmd| <= MAX_MESSAGE_LEN
    ensures |SerialChar(n, c).cmd| <= MAX_MESSAGE_LEN
  {}

  /** The machine, fed character by character from any state, does what the specification says of the whole input. */
  lemma {:induction false} MachineMeetsSpecification(n: Node, s: seq<Byte>)
    requires |n.cmd| <= MAX_MESSAGE_LEN
    ensures SerialRun(n, s) == Applied(n, Parse(n.commandMode, n.cmd, s))
    decreases |s|
  {
    if s == [] {
      assert n.cmd + Kept(s[..0]) == n.cmd;
    } else {
      CharRefines(n, s);
      CommandStaysBounded(n, s[0]);
      MachineMeetsSpecification(SerialChar(n, s[0]), s[1..]);
    }
  }

  /** How the input is cut into calls makes no difference to the state. */
  lemma {:induction false} ChunkingIrrelevant(n: Node, first: seq<Byte>, second: seq<Byte>)
    ensures SerialRun(n, first + second) == SerialRun(SerialRun(n, first), second)
    decreases |first|
  {
    if first == [] {
      assert first + second == second;
    } else {
      ChunkingIrrelevant(SerialChar(n, first[0]), first[1..], second);
      assert (first + second)[1..] == first[1..] + second;
    }
  }

  lemma {:induction false} RunIsSound(n: Node, s: seq<Byte>)
    requires Sound(n)
    ensures Sound(SerialRun(n, s))
    decreases |s|
  {
    if s == [] {
    } else {
      SerialSound(n, s[0]);
      RunIsSound(SerialChar(n, s[0]), s[1..]);
    }
  }

  lemma {:induction false} TextOnlyGrows(n: Node, s: seq<Byte>)
    ensures |SerialRun(n, s).tx| >= |n.tx|
    decreases |s|
  {
    if s == [] {
    } else {
      TextOnlyGrows(SerialChar(n, s[0]), s[1..]);
    }
  }

  lemma {:induction false} NotFound(s: seq<Byte>, c: Byte)
    requires c !in s
    ensures IndexOf(s, c) == |s|
  {
    if s == [] {
    } else {
      NotFound(s[1..], c);
    }
  }

  // ---------- The value returned ----------

  /** What a call returns after draining `s`: the result of its last character. */
  function LastResult(n: Node, s: seq<Byte>): Byte
    requires s != []
  {
    SerialResult(SerialRun(n, s[..|s| - 1]), s[|s| - 1])
  }

  /** A call reports the end of a line exactly when the last character it drained is one, outside any command. */
  lemma ReportsOnlyLastLineEnd(n: Node, s: seq<Byte>)
    requires s != [] && |n.cmd| <= MAX_MESSAGE_LEN
    ensures LastResult(n, s) == 1 <==>
      (s[|s| - 1] == '\n' as int || s[|s| - 1] == '\r' as int) && !Parse(n.commandMode, n.cmd, s[..|s| - 1]).open
  {
    MachineMeetsSpecification(n, s[..|s| - 1]);
  }

  /** Unlike the state, that report depends on the chunks: a line end that is not last in its chunk is missed. */
  lemma LineEndCanGoUnreported(n: Node, text: seq<Byte>, c: Byte)
    requires !n.commandMode && |n.cmd| <= MAX_MESSAGE_LEN && BANG !in text && c != NEWLINE && c != RETURN
    ensures LastResult(n, text + [NEWLINE]) == 1
    ensures LastResult(n, text + [NEWLINE] + [c]) == 0
  {
    var line := text + [NEWLINE];
    assert line[..|line| - 1] == text;
    ReportsOnlyLastLineEnd(n, line);
    NotFound(text, BANG);
    ReportsOnlyLastLineEnd(n, line + [c]);
  }

  lemma {:induction false} FoundAfter(s: seq<Byte>, c: Byte, rest: seq<Byte>)
    requires c !in s
    ensures IndexOf(s + [c] + rest, c) == |s|
  {
    if s == [] {
      assert (s + [c] + rest)[0] == c;
    } else {
      FoundAfter(s[1..], c, rest);
      assert (s + [c] + rest)[1..] == s[1..] + [c] + rest;
      assert (s + [c] + rest)[0] == s[0] != c;
    }
  }

  lemma {:induction false} AllKept(s: seq<Byte>)
    requires RETURN !in s && BANG !in s
    ensures Kept(s) == s
  {
    if s == [] {
    } else {
      AllKept(s[1..]);
      assert [s[0]] + s[1..] == s;
    }
  }

  // ---------- What the encoding does to text ----------

  predicate Special(c: Byte) {
    c == '\n' as int || c == '\r' as int || c == '*' as int || c == ' ' as int || c == '#' as int || c == '&' as int
  }

  function Occurrences(s: seq<Byte>, c: Byte): nat {
    if s == [] then 0 else (if s[0] == c then 1 else 0) + Occurrences(s[1..], c)
  }

  lemma OccurrencesOfPair(a: seq<Byte>, b: seq<Byte>, c: Byte)
    ensures Occurrences(a + b, c) == Occurrences(a, c) + Occurrences(b, c)
    decreases |a|
  {
    if a == [] {
      assert a + b == b;
    } else {
      OccurrencesOfPair(a[1..], b, c);
      assert (a + b)[1..] == a[1..] + b;
    }
  }

  lemma OneOccurrence(d: Byte, c: Byte)
    ensures Occurrences([d], c) == if d == c then 1 else 0
  {
    assert [d][1..] == [];
  }

  /** Text without special characters is sent as it is. */
  lemma {:induction false} PlainTextIsUnchanged(s: seq<Byte>)
    requires forall c :: c in s ==> !Special(c)
    ensures EncodeAll(s) == s
  {
    if s == [] {
    } else {
      assert s[0] in s;
      PlainTextIsUnchanged(s[1..]);
      assert [s[0]] + s[1..] == s;
    }
  }

  /** Each '#' is sent as an escape and each '&' as a carriage return; other special characters are not sent at all. */
  lemma {:induction false} SpecialsAreReplaced(s: seq<Byte>, c: Byte)
    ensures Occurrences(EncodeAll(s), c) ==
      if c == 27 then Occurrences(s, 27) + Occurrences(s, '#' as int)
      else if c == '\r' as int then Occurrences(s, '&' as int)
      else if Special(c) then 0
      else Occurrences(s, c)
  {
    if s == [] {
    } else {
      var sent, rest := Encode(s[0]), s[1..];
      SpecialsAreReplaced(rest, c);
      OccurrencesOfPair(sent, EncodeAll(rest), c);
      if sent != [] {
        OneOccurrence(sent[0], c);
      }
    }
  }

  /**
   * Text typed outside commands joins what was typed before. Sent, it goes on the air once, encoded, behind one type
   * byte, and the user is told of it and of whether it was acknowledged.
   */
  lemma TypedTextIsSent(n: Node, text: seq<Byte>, dest: Byte, sent: bool)
    requires !n.commandMode && n.cmd == [] && text != [] && '!' as int !in text
    ensures var m := SendTxMessage(SerialRun(n, text), dest, sent);
      var message := (if n.tx == [] then [1] else n.tx) + EncodeAll(text);
      && Adds(n.link, m.link, SendActs(message, dest, sent))
      && m == n.(link := m.link, tx := [])
  {
    hide SerialRun;
    MachineMeetsSpecification(n, text);
    NotFound(text, BANG);
    TextIsRecorded(SerialRun(n, text), dest, sent);
  }

  // ---------- Commands ----------

  lemma EmptyParse(partial: seq<Byte>)
    ensures Parse(false, partial, []) == Parsed([], [], false, partial)
  {}

  lemma ParseLineTail(text: seq<Byte>)
    requires NEWLINE !in text && RETURN !in text && BANG !in text
    ensures Parse(true, [], text + [NEWLINE]) == Parsed([Truncated(text)], [], false, [])
  {
    var tail := text + [NEWLINE];
    FoundAfter(text, NEWLINE, []);
    AllKept(text);
    hide IndexOf;
    hide Kept;
    hide Truncated;
    assert text + [NEWLINE] + [] == tail;
    assert tail[..|text|] == text && tail[|text| + 1..] == [] && [] + text == text;
    EmptyParse([]);
  }

  lemma ParseLine(text: seq<Byte>)
    requires NEWLINE !in text && RETURN !in text && BANG !in text
    ensures Parse(false, [], [BANG] + text + [NEWLINE]) == Parsed([Truncated(text)], [], false, [])
  {
    var line := [BANG] + text + [NEWLINE];
    ParseLineTail(text);
    assert line[1..] == text + [NEWLINE] && IndexOf(line, BANG) == 0;
    hide IndexOf;
    hide Kept;
    hide Truncated;
    assert line[..0] + [] == [];
  }

  /** A line from '!' to newline executes its text, cut to 128 characters, and leaves everything else as it was. */
  lemma CommandLine(n: Node, text: seq<Byte>)
    requires !n.commandMode && n.cmd == []
    requires NEWLINE !in text && RETURN !in text && BANG !in text
    ensures SerialRun(n, ['!' as int] + text + ['\n' as int]) == n.(link := ExecuteCommand(n.link, Truncated(text)))
  {
    hide ExecuteCommand;
    hide SerialRun;
    ParseLine(text);
    hide Parse;
    MachineMeetsSpecification(n, [BANG] + text + [NEWLINE]);
    assert ExecuteAll(n.link, [Truncated(text)]) == ExecuteCommand(n.link, Truncated(text));
  }

  /** A command of one character, or one that begins with none of the four letters, changes nothing at all. */
  lemma OtherCommands(n: Node, text: seq<Byte>)
    requires !n.commandMode && n.cmd == []
    requires NEWLINE !in text && RETURN !in text && BANG !in text
    requires |text| < 2 || (text[0] as char) !in "SBCP"
    ensures SerialRun(n, ['!' as int] + text + ['\n' as int]) == n
  {
    hide SerialRun;
    hide ExecuteCommand;
    CommandLine(n, text);
    CommandAdds(n.link, Truncated(text));
  }

  /** A character that stands for itself in a command line. */
  predicate Literal(c: Byte) {
    c != NEWLINE && c != RETURN && c != BANG
  }

  function Decimal(v: nat): seq<Byte>
    requires v < 100
  {
    if v < 10 then [ZERO + v] else [ZERO + v / 10, ZERO + v % 10]
  }

  function Command(letter: char, v: nat): seq<Byte>
    requires v < 100 && letter < 128 as char
  {
    [letter as int] + Decimal(v)
  }

  lemma CommandRuns(n: Node, letter: char, v: nat)
    requires Sound(n) && !n.commandMode && v < 100 && 'A' <= letter <= 'Z'
    ensures SerialRun(n, [BANG] + Command(letter, v) + [NEWLINE])
         == n.(link := ExecuteCommand(n.link, Command(letter, v)))
    ensures CommandValue(Command(letter, v)) == v
  {
    hide SerialRun;
    hide ExecuteCommand;
    CommandLine(n, Command(letter, v));
  }

  /** Typing a channel number sets that channel if there is one, and nothing otherwise; pending text is untouched. */
  lemma ChannelCommand(n: Node, v: nat)
    requires Sound(n) && !n.commandMode && v < 100
    ensures var m := SerialRun(n, [BANG] + Command('C', v) + [NEWLINE]);
      && m == n.(link := m.link)
      && m.link.cur == (if v < |FREQUENCY_CHANNEL_TABLE| then n.link.cur.(ch := v) else n.link.cur)
      && Sound(m)
  {
    hide SerialRun;
    hide Sound;
    CommandRuns(n, 'C', v);
    RunIsSound(n, [BANG] + Command('C', v) + [NEWLINE]);
    assert ExecuteCommand(n.link, Command('C', v)) == SetFrequencyChannel(n.link, v);
  }

  /** Typing a power sets it from 2 to 20 dBm, and nothing otherwise. */
  lemma PowerCommand(n: Node, v: nat)
    requires Sound(n) && !n.commandMode && v < 100
    ensures var m := SerialRun(n, [BANG] + Command('P', v) + [NEWLINE]);
      && m == n.(link := m.link)
      && m.link.cur == (if MIN_TX_POWER <= v <= MAX_TX_POWER then n.link.cur.(power := v) else n.link.cur)
      && Sound(m)
  {
    hide SerialRun;
    hide Sound;
    CommandRuns(n, 'P', v);
    RunIsSound(n, [BANG] + Command('P', v) + [NEWLINE]);
    assert ExecuteCommand(n.link, Command('P', v)) == SetTxPower(n.link, v);
  }

  /** The first digit of a number, which is all that the other two commands read. */
  function FirstDigit(v: nat): (d: nat)
    requires v < 100
    ensures d < 10
  {
    if v < 10 then v else v / 10
  }

  lemma SpreadingFactorCommand(n: Node, v: nat)
    requires Sound(n) && !n.commandMode && v < 100
    ensures var m := SerialRun(n, [BANG] + Command('S', v) + [NEWLINE]);
      && m == n.(link := m.link)
      && m.link.cur ==
           (if FirstDigit(v) < |SPREADING_FACTOR_TABLE| then n.link.cur.(sf := FirstDigit(v)) else n.link.cur)
      && Sound(m)
  {
    hide SerialRun;
    hide Sound;
    CommandRuns(n, 'S', v);
    RunIsSound(n, [BANG] + Command('S', v) + [NEWLINE]);
    assert ExecuteCommand(n.link, Command('S', v)) == SetSpreadingFactor(n.link, FirstDigit(v));
  }

  lemma BandwidthCommand(n: Node, v: nat)
    requires Sound(n) && !n.commandMode && v < 100
    ensures var m := SerialRun(n, [BANG] + Command('B', v) + [NEWLINE]);
      && m == n.(link := m.link)
      && m.link.cur ==
           (if FirstDigit(v) < |SIGNAL_BANDWIDTH_TABLE| then n.link.cur.(bw := FirstDigit(v)) else n.link.cur)
      && Sound(m)
  {
    hide SerialRun;
    hide Sound;
    CommandRuns(n, 'B', v);
    RunIsSound(n, [BANG] + Command('B', v) + [NEWLINE]);
    assert ExecuteCommand(n.link, Command('B', v)) == SetBandwidth(n.link, FirstDigit(v));
  }

  /** Any two characters after 'P' are read as a number, modulo 256 and with its sign. */
  lemma LettersArePower(n: Node, a: Byte, b: Byte)
    requires Sound(n) && !n.commandMode && Literal(a) && Literal(b)
    ensures var m := SerialRun(n, [BANG] + ['P' as int, a, b] + [NEWLINE]);
      var power := ToSByte((a - ZERO) * 10 + (b - ZERO));
      && m == n.(link := m.link)
      && m.link.cur == (if MIN_TX_POWER <= power <= MAX_TX_POWER then n.link.cur.(power := power) else n.link.cur)
      && Sound(m)
  {
    hide SerialRun;
    hide SoundLink;
    var text := ['P' as int, a, b];
    CommandLine(n, text);
    RunIsSound(n, [BANG] + text + [NEWLINE]);
    assert ExecuteCommand(n.link, text) == SetTxPower(n.link, ToSByte(CommandValue(text)));
  }

  /** Any two characters after 'C' are read as a number, modulo 256. */
  lemma LettersAreChannel(n: Node, a: Byte, b: Byte)
    requires Sound(n) && !n.commandMode && Literal(a) && Literal(b)
    ensures var m := SerialRun(n, [BANG] + ['C' as int, a, b] + [NEWLINE]);
      var channel := ToByte((a - ZERO) * 10 + (b - ZERO));
      && m == n.(link := m.link)
      && m.link.cur == (if channel < |FREQUENCY_CHANNEL_TABLE| then n.link.cur.(ch := channel) else n.link.cur)
      && Sound(m)
  {
    hide SerialRun;
    hide SoundLink;
    var text := ['C' as int, a, b];
    CommandLine(n, text);
    RunIsSound(n, [BANG] + text + [NEWLINE]);
    assert ExecuteCommand(n.link, text) == SetFrequencyChannel(n.link, ToByte(CommandValue(text)));
  }
}
