/** The buildkitd.toml the operator writes: the user's text with a listener and TLS block injected. */
module Toml {
  import opened Prelude

  const TLS_MOUNT := "/etc/buildkit-tls"
  const LISTENER := "tcp://"
  const GRPC_HEADER := "[grpc]"
  const TLS_HEADER := "[grpc.tls]"

  /** Where buildkitd finds a data entry of the mounted TLS Secret. */
  function MountedFile(entry: string): string {
    TLS_MOUNT + "/" + entry
  }

  /** Every line ended by a line break. */
  function Lines(lines: seq<string>): string {
    if lines == [] then "" else lines[0] + "\n" + Lines(lines[1..])
  }

  const ADDRESS := "  address = [ \"" + LISTENER + "0.0.0.0:1234\" ]"
  const CERT := "  cert = \"" + MountedFile("tls.crt") + "\""
  const KEY := "  key = \"" + MountedFile("tls.key") + "\""
  const CA := "  ca = \"" + MountedFile("ca.crt") + "\""

  const LISTENER_LINES := [GRPC_HEADER, ADDRESS, ""]
  const WORKER_LINES := ["[worker.containerd]", "  enabled = false", "", "[worker.oci]", "  enabled = true"]
  const TLS_LINES := [TLS_HEADER, CERT, KEY, CA]

  const LISTENER_BLOCK := Lines(LISTENER_LINES)
  const DEFAULT_TOML := LISTENER_BLOCK + Lines(WORKER_LINES)
  const TLS_BLOCK := "\n" + Lines(TLS_LINES)

  function WithDefault(user: string): string {
    if user == "" then DEFAULT_TOML else user
  }

  function WithListener(text: string): string {
    if Contains(text, LISTENER) then text else LISTENER_BLOCK + text
  }

  function WithTls(text: string, exposed: bool): string {
    if exposed && !Contains(text, TLS_HEADER) then text + TLS_BLOCK else text
  }

  function Rendered(user: string, exposed: bool): string {
    WithTls(WithListener(WithDefault(user)), exposed)
  }

  /** The text-building part of ensureBuildkitdConfigMap. */
  method RenderToml(user: string, exposed: bool) returns (text: string)
    ensures text == Rendered(user, exposed)
  {
    text := user;
    if text == "" {
      text := DEFAULT_TOML;
    }
    if !Contains(text, LISTENER) {
      text := LISTENER_BLOCK + text;
    }
    if exposed && !Contains(text, TLS_HEADER) {
      text := text + TLS_BLOCK;
    }
  }

  lemma Itself(text: string)
    ensures Contains(text, text)
  {
    assert OccursAt(text, text, 0);
  }

  /** A block of lines contains what one of them does. */
  lemma {:induction false} LineIsContained(lines: seq<string>, i: nat, needle: string)
    requires i < |lines| && Contains(lines[i], needle)
    ensures Contains(Lines(lines), needle)
  {
    if i == 0 {
      AppendKeeps(lines[0], "\n" + Lines(lines[1..]), needle);
      assert lines[0] + ("\n" + Lines(lines[1..])) == Lines(lines);
    } else {
      LineIsContained(lines[1..], i - 1, needle);
      PrependKeeps(lines[0] + "\n", Lines(lines[1..]), needle);
    }
  }

  lemma ListenerBlockHasListener()
    ensures Contains(LISTENER_BLOCK, LISTENER)
  {
    Itself(LISTENER);
    ContainsShifts("  address = [ \"", LISTENER, "0.0.0.0:1234\" ]", LISTENER);
    LineIsContained(LISTENER_LINES, 1, LISTENER);
  }

  lemma TlsBlockHas(i: nat, needle: string)
    requires i < |TLS_LINES| && Contains(TLS_LINES[i], needle)
    ensures Contains(TLS_BLOCK, needle)
  {
    LineIsContained(TLS_LINES, i, needle);
    PrependKeeps("\n", Lines(TLS_LINES), needle);
  }

  lemma TlsBlockHasHeader()
    ensures Contains(TLS_BLOCK, TLS_HEADER)
  {
    Itself(TLS_HEADER);
    TlsBlockHas(0, TLS_HEADER);
  }

  /** The injected block names the certificate, key and CA entries under the mount. */
  lemma TlsBlockNamesFiles()
    ensures Contains(TLS_BLOCK, MountedFile("tls.crt"))
    ensures Contains(TLS_BLOCK, MountedFile("tls.key"))
    ensures Contains(TLS_BLOCK, MountedFile("ca.crt"))
  {
    Itself(MountedFile("tls.crt"));
    Itself(MountedFile("tls.key"));
    Itself(MountedFile("ca.crt"));
    ContainsShifts("  cert = \"", MountedFile("tls.crt"), "\"", MountedFile("tls.crt"));
    ContainsShifts("  key = \"", MountedFile("tls.key"), "\"", MountedFile("tls.key"));
    ContainsShifts("  ca = \"", MountedFile("ca.crt"), "\"", MountedFile("ca.crt"));
    TlsBlockHas(1, MountedFile("tls.crt"));
    TlsBlockHas(2, MountedFile("tls.key"));
    TlsBlockHas(3, MountedFile("ca.crt"));
  }

  lemma ListenerIsInjected(text: string, kept: string)
    requires Contains(text, kept)
    ensures Contains(WithListener(text), LISTENER) && Contains(WithListener(text), kept)
  {
    if !Contains(text, LISTENER) {
      ListenerBlockHasListener();
      AppendKeeps(LISTENER_BLOCK, text, LISTENER);
      PrependKeeps(LISTENER_BLOCK, text, kept);
    }
  }

  lemma TlsIsInjected(text: string, exposed: bool, kept: string)
    requires Contains(text, kept)
    ensures exposed ==> Contains(WithTls(text, exposed), TLS_HEADER)
    ensures Contains(WithTls(text, exposed), kept)
  {
    if exposed && !Contains(text, TLS_HEADER) {
      TlsBlockHasHeader();
      PrependKeeps(text, TLS_BLOCK, TLS_HEADER);
      AppendKeeps(text, TLS_BLOCK, kept);
    }
  }

  /** buildkitd always listens on tcp, speaks TLS whenever the builder is exposed, and keeps the user's text whole. */
  lemma RenderedMeaning(user: string, exposed: bool)
    ensures Contains(Rendered(user, exposed), LISTENER)
    ensures exposed ==> Contains(Rendered(user, exposed), TLS_HEADER)
    ensures Contains(Rendered(user, exposed), user)
  {
    var text := WithDefault(user);
    assert OccursAt(text, user, 0);
    ListenerIsInjected(text, user);
    TlsIsInjected(WithListener(text), exposed, user);
    TlsIsInjected(WithListener(text), exposed, LISTENER);
  }

  /** Rendering a rendered text changes nothing. */
  lemma RenderingIsIdempotent(user: string, exposed: bool)
    ensures Rendered(Rendered(user, exposed), exposed) == Rendered(user, exposed)
  {
    RenderedMeaning(user, exposed);
    var i: nat :| i <= |Rendered(user, exposed)| && OccursAt(Rendered(user, exposed), LISTENER, i);
  }

  // -- The injected texts, as they stand in the file ------------------------------------------

  lemma OneLine(line: string, text: string)
    requires line + "\n" == text
    ensures Lines([line]) == text
  {
    assert [line][1..] == [];
    assert line + "\n" + "" == line + "\n";
  }

  lemma MoreLines(line: string, text: string, rest: seq<string>)
    requires line + "\n" == text
    ensures Lines([line] + rest) == text + Lines(rest)
  {
    assert ([line] + rest)[1..] == rest;
  }

  /** The listener, character by character. */
  lemma ListenerBlockIs()
    ensures LISTENER_BLOCK == "[grpc]\n" + ("  address = [ \"tcp://0.0.0.0:1234\" ]\n" + "\n")
  {
    hide Lines;
    AddressLineIs();
    OneLine("", "\n");
    MoreLines(ADDRESS, "  address = [ \"tcp://0.0.0.0:1234\" ]\n", [""]);
    MoreLines(GRPC_HEADER, "[grpc]\n", [ADDRESS, ""]);
    assert [ADDRESS] + [""] == [ADDRESS, ""] && [GRPC_HEADER] + [ADDRESS, ""] == LISTENER_LINES;
  }

  lemma AddressLineIs()
    ensures ADDRESS + "\n" == "  address = [ \"tcp://0.0.0.0:1234\" ]\n"
  {
  }

  lemma WorkersAre()
    ensures Lines(WORKER_LINES) ==
            "[worker.containerd]\n" + ("  enabled = false\n" + ("\n" + ("[worker.oci]\n" + "  enabled = true\n")))
  {
    hide Lines;
    OneLine("  enabled = true", "  enabled = true\n");
    MoreLines("[worker.oci]", "[worker.oci]\n", ["  enabled = true"]);
    MoreLines("", "\n", ["[worker.oci]"] + ["  enabled = true"]);
    MoreLines("  enabled = false", "  enabled = false\n", [""] + (["[worker.oci]"] + ["  enabled = true"]));
    MoreLines("[worker.containerd]", "[worker.containerd]\n",
      ["  enabled = false"] + ([""] + (["[worker.oci]"] + ["  enabled = true"])));
    assert WORKER_LINES ==
           ["[worker.containerd]"] + (["  enabled = false"] + ([""] + (["[worker.oci]"] + ["  enabled = true"])));
  }

  /** The default configuration. */
  lemma DefaultTomlIs()
    ensures DEFAULT_TOML ==
            "[grpc]\n" + ("  address = [ \"tcp://0.0.0.0:1234\" ]\n" + "\n")
            + ("[worker.containerd]\n" + ("  enabled = false\n" + ("\n" + ("[worker.oci]\n" + "  enabled = true\n"))))
  {
    hide Lines;
    ListenerBlockIs();
    WorkersAre();
  }

  lemma CertLineIs()
    ensures CERT + "\n" == "  cert = \"/etc/buildkit-tls/tls.crt\"\n"
  {
  }

  lemma KeyLineIs()
    ensures KEY + "\n" == "  key = \"/etc/buildkit-tls/tls.key\"\n"
  {
  }

  lemma CaLineIs()
    ensures CA + "\n" == "  ca = \"/etc/buildkit-tls/ca.crt\"\n"
  {
  }

  /** Four lines, each told by its text with the line break. */
  lemma FourLines(a: string, b: string, c: string, d: string, ta: string, tb: string, tc: string, td: string)
    requires a + "\n" == ta && b + "\n" == tb && c + "\n" == tc && d + "\n" == td
    ensures Lines([a, b, c, d]) == ta + (tb + (tc + td))
  {
    hide Lines;
    OneLine(d, td);
    MoreLines(c, tc, [d]);
    MoreLines(b, tb, [c] + [d]);
    MoreLines(a, ta, [b] + ([c] + [d]));
    assert [a] + ([b] + ([c] + [d])) == [a, b, c, d];
  }

  /** The TLS section. */
  lemma TlsBlockIs()
    ensures TLS_BLOCK ==
            "\n" + ("[grpc.tls]\n" + ("  cert = \"/etc/buildkit-tls/tls.crt\"\n"
                    + ("  key = \"/etc/buildkit-tls/tls.key\"\n" + "  ca = \"/etc/buildkit-tls/ca.crt\"\n")))
  {
    hide Lines, MountedFile;
    CertLineIs();
    KeyLineIs();
    CaLineIs();
    FourLines(TLS_HEADER, CERT, KEY, CA, "[grpc.tls]\n", "  cert = \"/etc/buildkit-tls/tls.crt\"\n",
              "  key = \"/etc/buildkit-tls/tls.key\"\n", "  ca = \"/etc/buildkit-tls/ca.crt\"\n");
  }

  // -- When the TLS section is injected ------------------------------------------------------

  lemma MissingCharacter(text: string, needle: string, c: char)
    requires c in needle && c !in text
    ensures !Contains(text, needle)
  {
  }

  lemma TooShort(text: string, needle: string)
    requires |text| < |needle|
    ensures !Contains(text, needle)
  {
  }

  lemma OccurrenceHas(text: string, needle: string, i: nat, at: nat)
    requires OccursAt(text, needle, i) && i <= at < i + |needle|
    ensures text[at] in needle
  {
    assert text[at] == text[i..i + |needle|][at - i];
  }

  lemma OccursBetweenBreaks(text: string, needle: string, i: nat, at: nat)
    requires OccursAt(text, needle, i) && '\n' !in needle
    requires at < |text| && text[at] == '\n'
    ensures at < i || i + |needle| <= at
  {
    if i <= at < i + |needle| {
      OccurrenceHas(text, needle, i, at);
    }
  }

  /** What has no line break in it occurs on one side of each line break. */
  lemma BreakSeparates(first: string, rest: string, needle: string)
    requires '\n' !in needle && needle != "" && Contains(first + "\n" + rest, needle)
    ensures Contains(first, needle) || Contains(rest, needle)
  {
    var text, n := first + "\n" + rest, |needle|;
    var i: nat :| i <= |text| && OccursAt(text, needle, i);
    if i + n <= |first| {
      assert first[i..i + n] == text[i..i + n];
      OccurrenceIsContained(first, needle, i);
    } else {
      OccursBetweenBreaks(text, needle, i, |first|);
      var j := i - |first| - 1;
      TailAt(first, rest, j, n);
      OccurrenceIsContained(rest, needle, j);
    }
  }

  lemma TailAt(first: string, rest: string, j: nat, n: nat)
    requires j + n <= |rest|
    ensures var text, i := first + "\n" + rest, |first| + 1 + j; text[i..i + n] == rest[j..j + n]
  {
  }

  lemma {:induction false} FoundInLine(lines: seq<string>, rest: string, needle: string)
    requires '\n' !in needle && needle != "" && Contains(Lines(lines) + rest, needle)
    ensures Contains(rest, needle) || exists i | 0 <= i < |lines| :: Contains(lines[i], needle)
  {
    if lines == [] {
      assert Lines(lines) + rest == rest;
    } else {
      var tail := Lines(lines[1..]) + rest;
      assert Lines(lines) + rest == lines[0] + "\n" + tail;
      BreakSeparates(lines[0], tail, needle);
      if !Contains(lines[0], needle) {
        FoundInLine(lines[1..], rest, needle);
        if !Contains(rest, needle) {
          var i :| 0 <= i < |lines[1..]| && Contains(lines[1..][i], needle);
          assert lines[i + 1] == lines[1..][i];
        }
      }
    }
  }

  lemma ListenerLinesHaveNoTls(i: nat)
    requires i < |LISTENER_LINES|
    ensures !Contains(LISTENER_LINES[i], TLS_HEADER)
  {
    assert |TLS_HEADER| == 10 && |GRPC_HEADER| == 6 && TLS_HEADER[1] == 'g';
    match i
    case 0 => TooShort(GRPC_HEADER, TLS_HEADER);
    case 1 => AddressHasNo('g'); MissingCharacter(ADDRESS, TLS_HEADER, 'g');
    case 2 => TooShort("", TLS_HEADER);
  }

  lemma AddressHasNo(c: char)
    requires c == 'g' || c == 'k'
    ensures c !in ADDRESS
  {
  }

  lemma WorkerLinesHaveNoTls(i: nat)
    requires i < |WORKER_LINES|
    ensures !Contains(WORKER_LINES[i], TLS_HEADER)
  {
    assert TLS_HEADER[1] == 'g';
    MissingCharacter(WORKER_LINES[i], TLS_HEADER, 'g');
  }

  lemma TlsHeaderIsOneLine()
    ensures '\n' !in TLS_HEADER && TLS_HEADER != ""
  {
  }

  /** Nothing the operator prepends mentions the TLS section. */
  lemma ListenerAddsNoTls(text: string)
    ensures Contains(WithListener(text), TLS_HEADER) <==> Contains(text, TLS_HEADER)
  {
    hide TLS_HEADER, Contains, Lines;
    TlsHeaderIsOneLine();
    if Contains(LISTENER_BLOCK + text, TLS_HEADER) {
      FoundInLine(LISTENER_LINES, text, TLS_HEADER);
      forall i | 0 <= i < |LISTENER_LINES|
        ensures !Contains(LISTENER_LINES[i], TLS_HEADER)
      {
        ListenerLinesHaveNoTls(i);
      }
    }
    if Contains(text, TLS_HEADER) {
      PrependKeeps(LISTENER_BLOCK, text, TLS_HEADER);
    }
  }

  lemma DefaultHasNoTls()
    ensures !Contains(DEFAULT_TOML, TLS_HEADER)
  {
    hide TLS_HEADER, Contains, Lines;
    TlsHeaderIsOneLine();
    if Contains(DEFAULT_TOML, TLS_HEADER) {
      FoundInLine(LISTENER_LINES, Lines(WORKER_LINES), TLS_HEADER);
      forall i | 0 <= i < |LISTENER_LINES|
        ensures !Contains(LISTENER_LINES[i], TLS_HEADER)
      {
        ListenerLinesHaveNoTls(i);
      }
      assert Lines(WORKER_LINES) + "" == Lines(WORKER_LINES);
      FoundInLine(WORKER_LINES, "", TLS_HEADER);
      forall i | 0 <= i < |WORKER_LINES|
        ensures !Contains(WORKER_LINES[i], TLS_HEADER)
      {
        WorkerLinesHaveNoTls(i);
      }
      EmptyHasNoTls();
    }
  }

  lemma EmptyHasNoTls()
    ensures !Contains("", TLS_HEADER)
  {
    TooShort("", TLS_HEADER);
  }

  /** The operator's TLS section is appended exactly when the user's text does not mention one, be it in a comment. */
  lemma TlsIsInjectedExactly(user: string)
    ensures Rendered(user, true) == WithListener(WithDefault(user)) + TLS_BLOCK
            <==> (user == "" || !Contains(user, TLS_HEADER))
    ensures !(user == "" || !Contains(user, TLS_HEADER)) ==> Rendered(user, true) == WithListener(WithDefault(user))
  {
    hide Contains, WithListener, DEFAULT_TOML;
    ListenerAddsNoTls(WithDefault(user));
    DefaultHasNoTls();
    BlockIsNotEmpty();
  }

  /** Without exposure the result has a TLS section exactly when the user's text has one. */
  lemma UnexposedAddsNoTls(user: string)
    ensures Contains(Rendered(user, false), TLS_HEADER) <==> Contains(user, TLS_HEADER)
  {
    hide Contains, WithListener, DEFAULT_TOML;
    ListenerAddsNoTls(WithDefault(user));
    DefaultHasNoTls();
    EmptyHasNoTls();
  }

  /** A text that has all the operator asks for is stored as it is. */
  lemma CompleteTextIsKept(user: string, exposed: bool)
    requires user != "" && Contains(user, LISTENER) && (exposed ==> Contains(user, TLS_HEADER))
    ensures Rendered(user, exposed) == user
  {
    hide Contains;
  }

  lemma BlockIsNotEmpty()
    ensures |TLS_BLOCK| > 0
  {
  }

  /** Then the configuration names all three files under the mount. */
  lemma ConfigurationNamesFiles(user: string, file: string)
    requires user == "" || !Contains(user, TLS_HEADER)
    requires file in {"tls.crt", "tls.key", "ca.crt"}
    ensures Contains(Rendered(user, true), MountedFile(file))
  {
    hide Contains, WithListener, DEFAULT_TOML, TLS_BLOCK, MountedFile;
    TlsIsInjectedExactly(user);
    TlsBlockNamesFiles();
    PrependKeeps(WithListener(WithDefault(user)), TLS_BLOCK, MountedFile(file));
  }

  const COMMENT := "# [grpc.tls]"

  lemma CommentMentionsTls()
    ensures Contains(COMMENT, TLS_HEADER) && COMMENT != "" && 'k' !in COMMENT && '\n' !in COMMENT
    ensures !Contains(COMMENT, LISTENER)
  {
    assert COMMENT[2..] == TLS_HEADER;
    assert OccursAt(COMMENT, TLS_HEADER, 2);
    assert LISTENER[3] == ':';
    MissingCharacter(COMMENT, LISTENER, ':');
  }

  /** A comment is enough to suppress it: the files are mounted, and the configuration names none of them. */
  lemma CommentSuppressesTls(file: string)
    requires '\n' !in file
    ensures Rendered(COMMENT, true) == LISTENER_BLOCK + COMMENT
    ensures !Contains(Rendered(COMMENT, true), MountedFile(file))
  {
    hide Contains, Lines, COMMENT, TLS_HEADER;
    CommentMentionsTls();
    TlsIsInjectedExactly(COMMENT);
    MountHasK(file);
    if Contains(LISTENER_BLOCK + COMMENT, MountedFile(file)) {
      FoundInLine(LISTENER_LINES, COMMENT, MountedFile(file));
      MissingCharacter(COMMENT, MountedFile(file), 'k');
      forall i | 0 <= i < |LISTENER_LINES|
        ensures !Contains(LISTENER_LINES[i], MountedFile(file))
      {
        ListenerLinesHaveNoK(i);
        MissingCharacter(LISTENER_LINES[i], MountedFile(file), 'k');
      }
    }
  }

  lemma MountHasK(file: string)
    requires '\n' !in file
    ensures 'k' in MountedFile(file) && '\n' !in MountedFile(file) && MountedFile(file) != ""
  {
    assert TLS_MOUNT[10] == 'k' && '\n' !in TLS_MOUNT;
    assert MountedFile(file)[10] == TLS_MOUNT[10];
  }

  lemma ListenerLinesHaveNoK(i: nat)
    requires i < |LISTENER_LINES|
    ensures 'k' !in LISTENER_LINES[i]
  {
    AddressHasNo('k');
  }
}
