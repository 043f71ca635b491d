/** The tables buildkitd.toml declares after injection, told from its lines. */
module TomlTables {
  import opened Prelude
  import opened Toml

  /** Where the first line ends. */
  function LineEnd(text: string): (n: nat)
    ensures n <= |text| && '\n' !in text[..n] && (n < |text| ==> text[n] == '\n')
  {
    if text == "" || text[0] == '\n' then 0 else 1 + LineEnd(text[1..])
  }

  /** The text from its first character on that is neither a space nor a tab. */
  function AfterBlanks(text: string): string {
    if text != "" && (text[0] == ' ' || text[0] == '\t') then AfterBlanks(text[1..]) else text
  }

  /** Nothing, a carriage return, or a comment. */
  predicate EndsLine(text: string) {
    text == "" || text == "\r" || text[0] == '#'
  }

  /**
   * The line is the header of the grpc table: brackets around the bare key, with blanks and a
   * comment where TOML allows them.
   */
  predicate OpensGrpc(line: string) {
    var open := AfterBlanks(line);
    && open != "" && open[0] == '['
    && var key := AfterBlanks(open[1..]);
       && |key| >= 4 && key[..4] == "grpc"
       && var close := AfterBlanks(key[4..]);
          close != "" && close[0] == ']' && EndsLine(AfterBlanks(close[1..]))
  }

  /** How many lines of the text are the header of the grpc table. */
  function GrpcTables(text: string): nat
    decreases |text|
  {
    var n := LineEnd(text);
    (if OpensGrpc(text[..n]) then 1 else 0) + (if n < |text| then GrpcTables(text[n + 1..]) else 0)
  }

  lemma LineEndIs(line: string, rest: string)
    requires '\n' !in line
    ensures LineEnd(line + "\n" + rest) == |line| && LineEnd(line) == |line|
  {
    var text := line + "\n" + rest;
    assert text[|line|] == '\n' && text[..|line|] == line;
    forall k | 0 <= k < |line|
      ensures text[k] != '\n' && line[k] != '\n'
    {
    }
  }

  /** A line of its own and what follows it are counted apart. */
  lemma CountsLine(line: string, rest: string)
    requires '\n' !in line
    ensures GrpcTables(line + "\n" + rest) == GrpcTables(rest) + if OpensGrpc(line) then 1 else 0
  {
    var text := line + "\n" + rest;
    LineEndIs(line, rest);
    assert text[..|line|] == line && text[|line| + 1..] == rest;
  }

  lemma CountsLastLine(line: string)
    requires '\n' !in line
    ensures GrpcTables(line) == if OpensGrpc(line) then 1 else 0
  {
    LineEndIs(line, "");
    assert line[..|line|] == line;
  }

  /** Texts joined by a line break are counted apart. */
  lemma {:induction false} CountsJoined(first: string, rest: string)
    ensures GrpcTables(first + "\n" + rest) == GrpcTables(first) + GrpcTables(rest)
    decreases |first|
  {
    hide GrpcTables, OpensGrpc;
    var n := LineEnd(first);
    var line := first[..n];
    if n == |first| {
      assert line == first;
      CountsLastLine(first);
      CountsLine(first, rest);
    } else {
      var tail := first[n + 1..];
      CountsJoined(tail, rest);
      CountsLine(line, tail);
      CountsLine(line, tail + "\n" + rest);
      assert first == line + "\n" + tail;
      assert first + "\n" + rest == line + "\n" + (tail + "\n" + rest);
    }
  }

  predicate OtherLine(line: string) {
    '\n' !in line && !OpensGrpc(line)
  }

  /** Lines that are not the header add nothing. */
  lemma {:induction false} OtherLinesAddNone(lines: seq<string>, rest: string)
    requires forall i | 0 <= i < |lines| :: OtherLine(lines[i])
    ensures GrpcTables(Lines(lines) + rest) == GrpcTables(rest)
  {
    if lines == [] {
      assert Lines(lines) + rest == rest;
    } else {
      OtherLinesAddNone(lines[1..], rest);
      CountsLine(lines[0], Lines(lines[1..]) + rest);
      assert Lines(lines) + rest == lines[0] + "\n" + (Lines(lines[1..]) + rest);
    }
  }

  lemma HeaderBlockAddsOne(address: string, text: string)
    requires OtherLine(address)
    ensures GrpcTables(Lines([GRPC_HEADER, address, ""]) + text) == 1 + GrpcTables(text)
  {
    hide OpensGrpc, GrpcTables;
    var others := [address, ""];
    BareHeaderOpensGrpc();
    EmptyIsOther();
    assert [GRPC_HEADER, address, ""][1..] == others;
    OtherLinesAddNone(others, text);
    CountsLine(GRPC_HEADER, Lines(others) + text);
    assert Lines([GRPC_HEADER, address, ""]) + text == GRPC_HEADER + "\n" + (Lines(others) + text);
  }

  lemma OtherBlockAddsNone(text: string, lines: seq<string>)
    requires forall i | 0 <= i < |lines| :: OtherLine(lines[i])
    ensures GrpcTables(text + ("\n" + Lines(lines))) == GrpcTables(text)
  {
    hide Lines, GrpcTables;
    var block := Lines(lines);
    OtherLinesAddNone(lines, "");
    EmptyDeclaresNone();
    assert block + "" == block;
    CountsJoined(text, block);
    assert text + "\n" + block == text + ("\n" + block);
  }

  lemma EmptyDeclaresNone()
    ensures GrpcTables("") == 0
  {
  }

  /** A line whose first character after two blanks is no bracket opens no table. */
  lemma IndentedIsOther(line: string)
    requires Indented(line) && '\n' !in line
    ensures OtherLine(line)
  {
    IndentedOpensNone(line);
  }

  predicate Indented(line: string) {
    |line| > 2 && line[0] == line[1] == ' ' && line[2] != ' ' && line[2] != '\t' && line[2] != '['
  }

  lemma IndentedOpensNone(line: string)
    requires Indented(line)
    ensures !OpensTable(line)
  {
    assert line[1..][0] == ' ' && line[1..][1..] == line[2..];
    assert AfterBlanks(line[2..]) == line[2..];
    assert AfterBlanks(line[1..]) == line[2..];
  }

  lemma BareHeaderOpensGrpc()
    ensures OpensGrpc(GRPC_HEADER) && '\n' !in GRPC_HEADER && !Contains(GRPC_HEADER, LISTENER)
  {
    var open := GRPC_HEADER;
    assert AfterBlanks(open) == open && AfterBlanks(open[1..]) == open[1..];
    assert open[1..][..4] == "grpc" && open[1..][4..] == "]";
    assert AfterBlanks("]") == "]" && "]"[1..] == "";
    assert LISTENER[3] == ':';
    MissingCharacter(GRPC_HEADER, LISTENER, ':');
  }

  /** The listener block declares one grpc table. */
  lemma ListenerBlockAddsTable(text: string)
    ensures GrpcTables(LISTENER_BLOCK + text) == 1 + GrpcTables(text)
  {
    hide OtherLine, Lines, GrpcTables;
    IndentedIsOther(ADDRESS);
    HeaderBlockAddsOne(ADDRESS, text);
  }

  lemma MountedFileIsOther(before: string, entry: string, after: string)
    requires '\n' !in before && '\n' !in entry && '\n' !in after
    requires Indented(before)
    ensures OtherLine(before + MountedFile(entry) + after)
  {
    assert '\n' !in TLS_MOUNT;
    var line := before + MountedFile(entry) + after;
    assert line[0] == before[0] && line[1] == before[1] && line[2] == before[2];
    IndentedIsOther(line);
  }

  lemma TlsLinesAreOther()
    ensures forall i | 0 <= i < |TLS_LINES| :: OtherLine(TLS_LINES[i])
  {
    hide MountedFile;
    MountedFileIsOther("  cert = \"", "tls.crt", "\"");
    MountedFileIsOther("  key = \"", "tls.key", "\"");
    MountedFileIsOther("  ca = \"", "ca.crt", "\"");
    TlsHeaderIsOther();
  }

  lemma TlsHeaderIsOther()
    ensures OtherLine(TLS_HEADER)
  {
    var open := TLS_HEADER;
    assert AfterBlanks(open) == open && AfterBlanks(open[1..]) == open[1..];
    assert open[1..][4..][0] == '.';
  }

  /** The TLS block declares a table of its own and no other. */
  lemma TlsBlockAddsNoTable(text: string)
    ensures GrpcTables(text + TLS_BLOCK) == GrpcTables(text)
  {
    hide OtherLine, Lines, GrpcTables;
    TlsLinesAreOther();
    OtherBlockAddsNone(text, TLS_LINES);
  }

  lemma WorkerIsOther(line: string)
    requires |line| > 1 && line[0] == '[' && line[1] == 'w' && '\n' !in line
    ensures OtherLine(line)
  {
    assert AfterBlanks(line) == line && AfterBlanks(line[1..]) == line[1..];
    assert |line[1..]| >= 4 ==> line[1..][..4][0] == 'w';
  }

  lemma WorkerLinesAreOther()
    ensures forall i | 0 <= i < |WORKER_LINES| :: OtherLine(WORKER_LINES[i])
  {
    hide OpensGrpc;
    WorkerIsOther("[worker.containerd]");
    WorkerIsOther("[worker.oci]");
    IndentedIsOther("  enabled = false");
    IndentedIsOther("  enabled = true");
    EmptyIsOther();
  }

  lemma EmptyIsOther()
    ensures OtherLine("")
  {
  }

  lemma DefaultDeclaresOneTable()
    ensures GrpcTables(DEFAULT_TOML) == 1 && Contains(DEFAULT_TOML, LISTENER)
  {
    WorkerLinesAreOther();
    OtherLinesAddNone(WORKER_LINES, "");
    assert Lines(WORKER_LINES) + "" == Lines(WORKER_LINES);
    ListenerBlockAddsTable(Lines(WORKER_LINES));
    ListenerBlockHasListener();
    AppendKeeps(LISTENER_BLOCK, Lines(WORKER_LINES), LISTENER);
  }

  /**
   * A text that already declares the grpc table, but names no tcp address, gets the table
   * declared a second time, which TOML forbids. That is the only way injection adds to the
   * declarations a user makes.
   */
  lemma InjectionDeclaresTables(user: string, exposed: bool)
    requires user != ""
    ensures GrpcTables(Rendered(user, exposed)) == GrpcTables(user) + if Contains(user, LISTENER) then 0 else 1
    ensures GrpcTables(user) <= 1 ==>
              (GrpcTables(Rendered(user, exposed)) <= 1 <==> GrpcTables(user) == 0 || Contains(user, LISTENER))
  {
    ListenerBlockAddsTable(user);
    TlsBlockAddsNoTable(WithListener(user));
  }

  /** The default text stays at one declaration. */
  lemma DefaultIsWellDeclared(exposed: bool)
    ensures GrpcTables(Rendered("", exposed)) == 1
  {
    DefaultDeclaresOneTable();
    TlsBlockAddsNoTable(DEFAULT_TOML);
  }

  /** Any header line, with blanks or a comment, ends up declared twice when it is all the user writes. */
  lemma LoneHeaderIsDeclaredTwice(line: string, exposed: bool)
    requires OpensGrpc(line) && '\n' !in line && !Contains(line, LISTENER)
    ensures GrpcTables(Rendered(line, exposed)) == 2
  {
    hide OpensGrpc, Contains;
    assert line != "" by { EmptyIsOther(); }
    CountsLastLine(line);
    InjectionDeclaresTables(line, exposed);
  }

  /** The shortest text that breaks: the bare header. */
  lemma BareHeaderIsDeclaredTwice(exposed: bool)
    ensures GrpcTables(Rendered(GRPC_HEADER, exposed)) == 2
  {
    BareHeaderOpensGrpc();
    LoneHeaderIsDeclaredTwice(GRPC_HEADER, exposed);
  }

  // -- The table lines belong to -------------------------------------------------------------

  /** The line opens some table, or an array of tables. */
  predicate OpensTable(line: string) {
    var open := AfterBlanks(line);
    open != "" && open[0] == '['
  }

  /** The header a key after these lines belongs to; none at top level. */
  function CurrentTable(lines: seq<string>): Option<string> {
    if lines == [] then None
    else
      var last := lines[|lines| - 1];
      if OpensTable(last) then Some(last) else CurrentTable(lines[..|lines| - 1])
  }

  lemma {:induction false} LinesJoin(first: seq<string>, second: seq<string>)
    ensures Lines(first + second) == Lines(first) + Lines(second)
  {
    if first == [] {
      assert first + second == second;
    } else {
      LinesJoin(first[1..], second);
      assert (first + second)[1..] == first[1..] + second;
    }
  }

  lemma {:induction false} TableStaysOpen(before: seq<string>, lead: seq<string>)
    requires forall i | 0 <= i < |lead| :: !OpensTable(lead[i])
    ensures CurrentTable(before + lead) == CurrentTable(before)
  {
    if lead == [] {
      assert before + lead == before;
    } else {
      TableStaysOpen(before, lead[..|lead| - 1]);
      assert (before + lead)[..|before + lead| - 1] == before + lead[..|lead| - 1];
    }
  }

  lemma ListenerBlockOpensGrpc()
    ensures CurrentTable(LISTENER_LINES) == Some(GRPC_HEADER)
  {
    var header := [GRPC_HEADER];
    assert header[..0] == [] && AfterBlanks(GRPC_HEADER) == GRPC_HEADER;
    assert CurrentTable(header) == Some(GRPC_HEADER);
    AddressOpensNone();
    TableStaysOpen(header, [ADDRESS, ""]);
    assert LISTENER_LINES == header + [ADDRESS, ""];
  }

  lemma AddressOpensNone()
    ensures !OpensTable(ADDRESS) && !OpensTable("")
  {
    IndentedOpensNone(ADDRESS);
  }

  lemma JoinsFront(a: string, b: string, c: string)
    ensures a + (b + c) == a + b + c && a + b + c <= a + b + c + TLS_BLOCK
  {
  }

  /**
   * Top-level keys do not survive the injection: lines before the first table header of a text
   * without a tcp address stand at top level in it, and under the grpc table in the result.
   */
  lemma TopLevelLinesFallUnderGrpc(lead: seq<string>, rest: string, exposed: bool)
    requires forall i | 0 <= i < |lead| :: !OpensTable(lead[i])
    requires Lines(lead) + rest != "" && !Contains(Lines(lead) + rest, LISTENER)
    ensures CurrentTable(lead) == None
    ensures Lines(LISTENER_LINES + lead) + rest <= Rendered(Lines(lead) + rest, exposed)
    ensures CurrentTable(LISTENER_LINES + lead) == Some(GRPC_HEADER)
  {
    hide OpensTable, Contains, Lines, LISTENER_LINES, TLS_LINES;
    TableStaysOpen([], lead);
    assert [] + lead == lead;
    LinesJoin(LISTENER_LINES, lead);
    ListenerBlockOpensGrpc();
    TableStaysOpen(LISTENER_LINES, lead);
    JoinsFront(Lines(LISTENER_LINES), Lines(lead), rest);
  }
}
