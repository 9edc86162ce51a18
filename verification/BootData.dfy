/** Boot data of an instance: header stripping, YAML to JSON, and the block that a
    control-plane node gets for the floating IP on its loopback device. */
module BootData {
  import opened Api

  /** A JSON value tree; two numbers are equal when their values are. */
  datatype Json =
    | Null
    | Bool(b: bool)
    | Number(n: real)
    | Str(s: string)
    | Arr(items: seq<Json>)
    | Obj(fields: map<string, Json>)

  const WRITE_FILES := "write_files"
  const RUNCMD := "runcmd"
  const UNIT_NAME := "configure-lo.service"
  function ScriptContent(ip: string): string
  {
    "#!/bin/sh\n" + "ip addr show dev lo | " + "grep -q '" + ip + "' || " + "ip addr add " + ip + "/32 dev lo" + "\n"
  }

  function UnitContent(script: string): string
  {
    "[Unit]\nDescription=Add persistent loopback address\nAfter=network-pre.target\n" +
    "Wants=network-pre.target\nBefore=kubelet.service\n\n[Service]\nType=oneshot\n" +
    "ExecStart=" + script + "\n" + "RemainAfterExit=yes\n\n" + "[Install]\nWantedBy=multi-user.target\n"
  }

  function File(path: string, permissions: string, content: string): Json
  {
    Obj(map["path" := Str(path), "permissions" := Str(permissions),
            "owner" := Str("root:root"), "content" := Str(content)])
  }

  /** A script that puts `ip` on the loopback device, and a unit that runs it at boot. */
  function LoopbackFiles(ip: string): seq<Json>
  {
    [File("/usr/local/bin/configure-lo.sh", "0755", ScriptContent(ip)),
     File("/etc/systemd/system/configure-lo.service", "0644", UnitContent("/usr/local/bin/configure-lo.sh"))]
  }

  function LoopbackCommands(unit: string): seq<Json>
  {
    [Arr([Str("systemctl"), Str("daemon-reload")]),
     Arr([Str("systemctl"), Str("enable"), Str(unit)]),
     Arr([Str("systemctl"), Str("start"), Str(unit)])]
  }

  /** The list under `key`, or none when the key is missing or holds something else. */
  function ListAt(cfg: map<string, Json>, key: string): seq<Json>
  {
    if key in cfg && cfg[key].Arr? then cfg[key].items else []
  }

  function AddBlock(cfg: map<string, Json>, files: seq<Json>, commands: seq<Json>): map<string, Json>
  {
    cfg[WRITE_FILES := Arr(ListAt(cfg, WRITE_FILES) + files)][RUNCMD := Arr(ListAt(cfg, RUNCMD) + commands)]
  }

  function Augment(cfg: map<string, Json>, ip: string): map<string, Json>
  { AddBlock(cfg, LoopbackFiles(ip), LoopbackCommands(UNIT_NAME)) }

  // ---------- text ----------

  /** The YAML and JSON libraries, as far as they are used: YAML to the value of its JSON, an
      object to its text, and the float64 that a number is read as, if it is in range. */
  datatype Library = Library(
    convert: string -> Option<Json>, marshal: Json -> string, round: real -> Option<real>)

  /** Can json.Unmarshal read every number in it? */
  predicate InRange(lib: Library, j: Json)
  {
    match j
    case Number(n) => lib.round(n).Some?
    case Arr(items) => forall i :: 0 <= i < |items| ==> InRange(lib, items[i])
    case Obj(fields) => forall key :: key in fields ==> InRange(lib, fields[key])
    case _ => true
  }

  /** The value that json.Unmarshal reads: the same but for the numbers. */
  function Rounded(lib: Library, j: Json): Json
    requires InRange(lib, j)
  {
    match j
    case Number(n) => Number(lib.round(n).value)
    case Arr(items) => Arr(seq(|items|, i requires 0 <= i < |items| => Rounded(lib, items[i])))
    case Obj(fields) => Obj(map key | key in fields :: Rounded(lib, fields[key]))
    case _ => j
  }

  /** json.Unmarshal into a map. A null gives a nil map, and writing to that panics. */
  function Decoded(lib: Library, j: Json): Option<map<string, Json>>
  {
    if j.Obj? && InRange(lib, j) then Some(Rounded(lib, j).fields) else None
  }

  /** Every number in it is a float64. */
  predicate Exact(lib: Library, j: Json)
  {
    match j
    case Number(n) => lib.round(n) == Some(n)
    case Arr(items) => forall i :: 0 <= i < |items| ==> Exact(lib, items[i])
    case Obj(fields) => forall key :: key in fields ==> Exact(lib, fields[key])
    case _ => true
  }

  /** The YAML library reads the text of `j` as `j`. */
  predicate Survives(lib: Library, j: Json)
  { lib.convert(lib.marshal(j)) == Some(j) }

  /** The text of an object begins and ends like one. */
  predicate BracesAround(t: string)
  {
    |t| >= 2 && t[0] == '{' && t[|t| - 1] == '}'
  }

  /** White space as Unicode has it. */
  predicate IsSpace(c: char)
  {
    var u := c as int;
    9 <= u <= 13 || u == 32 || u == 0x85 || u == 0xA0 || u == 0x1680 || 0x2000 <= u <= 0x200A
    || u == 0x2028 || u == 0x2029 || u == 0x202F || u == 0x205F || u == 0x3000
  }

  function TrimLeft(b: string): string
  { if b != "" && IsSpace(b[0]) then TrimLeft(b[1..]) else b }

  function TrimRight(b: string): string
  { if b != "" && IsSpace(b[|b| - 1]) then TrimRight(b[..|b| - 1]) else b }

  function TrimSpace(b: string): string
  { TrimRight(TrimLeft(b)) }

  /** Where the first newline is. */
  function NewlineIn(b: string): Option<nat>
  {
    if b == "" then None
    else if b[0] == '\n' then Some(0)
    else match NewlineIn(b[1..]) case Some(i) => Some(i + 1) case None => None
  }

  const HEADERS := ["#cloud-config", "#cloud-boothook", "#cloud-config-archive"]

  predicate HasHeader(b: string)
  { HEADERS[0] <= b || HEADERS[1] <= b || HEADERS[2] <= b }

  /** The text that is handed to the YAML library, if any. */
  function Stripped(userData: string): (r: Option<string>)
  {
    var b := TrimSpace(userData);
    if !HasHeader(b) then Some(b)
    else match NewlineIn(b)
      case None => None
      case Some(i) => if i < |b| then Some(TrimSpace(b[i + 1..])) else None
  }

  function Converted(lib: Library, userData: string): Option<Json>
  {
    match Stripped(userData) case None => None case Some(text) => lib.convert(text)
  }

  lemma {:induction false} TrimLeftDrops(space: string, b: string)
    requires forall i :: 0 <= i < |space| ==> IsSpace(space[i])
    requires b == "" || !IsSpace(b[0])
    ensures TrimLeft(space + b) == b
    decreases |space|
  {
    if space == "" {
      assert space + b == b;
    } else {
      assert (space + b)[1..] == space[1..] + b;
      TrimLeftDrops(space[1..], b);
    }
  }

  lemma {:induction false} TrimRightDrops(b: string, space: string)
    requires forall i :: 0 <= i < |space| ==> IsSpace(space[i])
    requires b == "" || !IsSpace(b[|b| - 1])
    ensures TrimRight(b + space) == b
    decreases |space|
  {
    if space == "" {
      assert b + space == b;
    } else {
      assert (b + space)[..|b + space| - 1] == b + space[..|space| - 1];
      TrimRightDrops(b, space[..|space| - 1]);
    }
  }

  lemma {:induction false} FirstNewline(line: string, rest: string)
    requires forall i :: 0 <= i < |line| ==> line[i] != '\n'
    ensures NewlineIn(line + "\n" + rest) == Some(|line|)
    decreases |line|
  {
    var b := line + "\n" + rest;
    if line != "" {
      assert b[1..] == line[1..] + "\n" + rest;
      FirstNewline(line[1..], rest);
    }
  }

  /** A header line, with any space around the document and around its body, is cut off. */
  lemma HeaderIsStripped(before: string, line: string, body: string, after: string)
    requires forall i :: 0 <= i < |before| ==> IsSpace(before[i])
    requires forall i :: 0 <= i < |after| ==> IsSpace(after[i])
    requires HasHeader(line) && forall i :: 0 <= i < |line| ==> line[i] != '\n'
    requires body != "" && !IsSpace(body[0]) && !IsSpace(body[|body| - 1])
    ensures Stripped(before + (line + "\n" + body) + after) == Some(body)
  {
    var doc := line + "\n" + body;
    assert doc[0] == line[0] && doc[|doc| - 1] == body[|body| - 1];
    TrimmedText(before, doc, after);
    FirstNewline(line, body);
    assert doc[|line| + 1..] == body;
    assert HasHeader(doc) by {
      assert doc[..|line|] == line;
    }
    TrimmedText("", body, "");
    assert "" + body + "" == body;
  }

  /** And nothing else is. */
  lemma BodyIsKept(before: string, body: string, after: string)
    requires forall i :: 0 <= i < |before| ==> IsSpace(before[i])
    requires forall i :: 0 <= i < |after| ==> IsSpace(after[i])
    requires body != "" && !IsSpace(body[0]) && !IsSpace(body[|body| - 1]) && !HasHeader(body)
    ensures Stripped(before + body + after) == Some(body)
  {
    TrimmedText(before, body, after);
  }

  lemma TrimmedText(before: string, text: string, after: string)
    requires forall i :: 0 <= i < |before| ==> IsSpace(before[i])
    requires forall i :: 0 <= i < |after| ==> IsSpace(after[i])
    requires text != "" && !IsSpace(text[0]) && !IsSpace(text[|text| - 1])
    ensures TrimSpace(before + text + after) == text
  {
    assert before + text + after == before + (text + after);
    TrimLeftDrops(before, text + after);
    TrimRightDrops(text, after);
  }

  /** Running the conversion over its own output hands all of it to the YAML library, so it
      leaves the value unchanged if and only if the library reads the text back as that value. */
  lemma ReconversionIsIdentity(lib: Library, cfg: map<string, Json>, ip: string)
    requires BracesAround(lib.marshal(Obj(Augment(cfg, ip))))
    ensures Converted(lib, lib.marshal(Obj(Augment(cfg, ip)))) == lib.convert(lib.marshal(Obj(Augment(cfg, ip))))
    ensures Survives(lib, Obj(Augment(cfg, ip))) <==>
              Converted(lib, lib.marshal(Obj(Augment(cfg, ip)))) == Some(Obj(Augment(cfg, ip)))
  {
    var t := lib.marshal(Obj(Augment(cfg, ip)));
    TrimmedText("", t, "");
    assert "" + t + "" == t;
  }

  /** Reading a document whose numbers are exact changes nothing. */
  lemma {:induction false} ExactIsKept(lib: Library, j: Json)
    requires Exact(lib, j)
    ensures InRange(lib, j) && Rounded(lib, j) == j
  {
    match j
    case Arr(items) =>
      forall i | 0 <= i < |items| ensures InRange(lib, items[i]) && Rounded(lib, items[i]) == items[i] {
        ExactIsKept(lib, items[i]);
      }
    case Obj(fields) =>
      forall key | key in fields ensures InRange(lib, fields[key]) && Rounded(lib, fields[key]) == fields[key] {
        ExactIsKept(lib, fields[key]);
      }
    case _ =>
  }

  /** What was read of a document is exact, when rounding a second time changes nothing. */
  lemma {:induction false} RoundedIsExact(lib: Library, j: Json)
    requires forall n :: lib.round(n).Some? ==> lib.round(lib.round(n).value) == lib.round(n)
    requires InRange(lib, j)
    ensures Exact(lib, Rounded(lib, j))
  {
    match j
    case Arr(items) =>
      forall i | 0 <= i < |items| ensures Exact(lib, Rounded(lib, items[i])) { RoundedIsExact(lib, items[i]); }
    case Obj(fields) =>
      forall key | key in fields ensures Exact(lib, Rounded(lib, fields[key])) { RoundedIsExact(lib, fields[key]); }
    case _ =>
  }

  /** The configuration that is read of the secret of a control-plane node. */
  function Document(lib: Library, secret: string): Option<map<string, Json>>
  {
    match Converted(lib, secret) case None => None case Some(raw) => Decoded(lib, raw)
  }

  /** The user data that comes of a secret. None ends the pass: a text that does not convert, or, for
      a control-plane node, a document that cannot be read or a text that does not convert again. */
  function UserData(lib: Library, secret: string, controlPlane: bool, ip: string): Option<Json>
  {
    if !controlPlane then Converted(lib, secret)
    else match Document(lib, secret)
      case None => None
      case Some(cfg) => Converted(lib, lib.marshal(Obj(Augment(cfg, ip))))
  }

  /** A control-plane node gets its own configuration with the block added once, if and only if the
      libraries read the augmented configuration back. */
  lemma BlockIsSent(lib: Library, secret: string, ip: string)
    requires Document(lib, secret).Some?
    requires BracesAround(lib.marshal(Obj(Augment(Document(lib, secret).value, ip))))
    ensures var augmented := Obj(Augment(Document(lib, secret).value, ip));
      && (UserData(lib, secret, true, ip) == Some(augmented) <==> Survives(lib, augmented))
      && (UserData(lib, secret, true, ip).None? <==> lib.convert(lib.marshal(augmented)).None?)
  {
    ReconversionIsIdentity(lib, Document(lib, secret).value, ip);
  }

  /** A text for each of the documents that `doc` gives. */
  ghost function TextFor(doc: string -> Json, j: Json): (t: string)
    ensures (exists ip :: doc(ip) == j) ==> exists ip :: doc(ip) == j && t == "{" + ip + "}"
  {
    if exists ip :: doc(ip) == j then
      var ip :| doc(ip) == j;
      "{" + ip + "}"
    else ""
  }

  /** A library with exact numbers that knows those documents, and reads any other text as `base`. */
  ghost function LibraryFor(doc: string -> Json, base: Json): Library
  {
    Library(t => if BracesAround(t) then Some(doc(t[1..|t| - 1])) else Some(base), j => TextFor(doc, j), n => Some(n))
  }

  lemma KnowsItsDocuments(doc: string -> Json, base: Json, ip: string)
    ensures Survives(LibraryFor(doc, base), doc(ip)) && BracesAround(LibraryFor(doc, base).marshal(doc(ip)))
  {
    var t := TextFor(doc, doc(ip));
    var other :| doc(other) == doc(ip) && t == "{" + other + "}";
    assert t[1..|t| - 1] == other;
  }

  lemma ReadsTheBase(doc: string -> Json, cfg: map<string, Json>, secret: string)
    requires secret == "x"
    ensures Document(LibraryFor(doc, Obj(cfg)), secret) == Some(cfg)
  {
    var lib := LibraryFor(doc, Obj(cfg));
    TrimmedText("", secret, "");
    assert "" + secret + "" == secret;
    assert !HasHeader(secret);
    assert Converted(lib, secret) == Some(Obj(cfg));
    AllExact(lib, Obj(cfg));
    ExactIsKept(lib, Obj(cfg));
  }

  lemma SendsItsDocuments(lib: Library, doc: string -> Json, cfg: map<string, Json>, secret: string, ip: string)
    requires lib == LibraryFor(doc, Obj(cfg)) && Document(lib, secret) == Some(cfg)
    requires doc(ip) == Obj(Augment(cfg, ip))
    ensures UserData(lib, secret, true, ip) == Some(doc(ip))
  {
    KnowsItsDocuments(doc, Obj(cfg), ip);
    BlockIsSent(lib, secret, ip);
  }

  /** For every configuration there are libraries and a secret that send the block at any address. */
  lemma SomeLibraryKeeps(cfg: map<string, Json>) returns (lib: Library, secret: string)
    ensures Document(lib, secret) == Some(cfg)
    ensures forall ip :: UserData(lib, secret, true, ip) == Some(Obj(Augment(cfg, ip)))
  {
    var doc := ip => Obj(Augment(cfg, ip));
    lib, secret := LibraryFor(doc, Obj(cfg)), "x";
    ReadsTheBase(doc, cfg, secret);
    forall ip ensures UserData(lib, secret, true, ip) == Some(Obj(Augment(cfg, ip))) {
      assert doc(ip) == Obj(Augment(cfg, ip));
      SendsItsDocuments(lib, doc, cfg, secret, ip);
    }
  }

  lemma {:induction false} AllExact(lib: Library, j: Json)
    requires forall n :: lib.round(n) == Some(n)
    ensures Exact(lib, j)
  {
    match j
    case Arr(items) =>
      forall i | 0 <= i < |items| ensures Exact(lib, items[i]) { AllExact(lib, items[i]); }
    case Obj(fields) =>
      forall key | key in fields ensures Exact(lib, fields[key]) { AllExact(lib, fields[key]); }
    case _ =>
  }

  // ---------- the block, entry by entry ----------

  ghost predicate Contains(s: string, part: string)
  { exists before, after :: s == before + part + after }

  /** The list under `key` is the one there was, if any, with `n` entries after it. */
  predicate Lengthened(cfg: map<string, Json>, out: map<string, Json>, key: string, n: nat)
  {
    && key in out && out[key].Arr? && |out[key].items| >= n
    && out[key].items[..|out[key].items| - n] == if key in cfg && cfg[key].Arr? then cfg[key].items else []
  }

  /** `out` is `cfg` with a script that puts `ip` on the loopback device, a unit that runs it, and the
      commands that enable and start the unit. */
  ghost predicate HasBlock(cfg: map<string, Json>, out: map<string, Json>, ip: string)
  {
    && (forall key :: key != "write_files" && key != "runcmd" ==>
          (key in out <==> key in cfg) && (key in cfg ==> out[key] == cfg[key]))
    && Lengthened(cfg, out, "write_files", 2) && Lengthened(cfg, out, "runcmd", 3)
    && var files, commands := out["write_files"].items, out["runcmd"].items;
    && IsScriptFor(files[|files| - 2], ip) && IsUnit(files[|files| - 1])
    && commands[|commands| - 3..] ==
         [Arr([Str("systemctl"), Str("daemon-reload")]),
          Arr([Str("systemctl"), Str("enable"), Str("configure-lo.service")]),
          Arr([Str("systemctl"), Str("start"), Str("configure-lo.service")])]
  }

  ghost predicate IsScriptFor(j: Json, ip: string)
  {
    exists text ::
      && j == Obj(map["path" := Str("/usr/local/bin/configure-lo.sh"), "permissions" := Str("0755"),
                      "owner" := Str("root:root"), "content" := Str(text)])
      && "#!/bin/sh\n" <= text && Contains(text, "ip addr add " + ip + "/32 dev lo")
      && Contains(text, "grep -q '" + ip + "' || ")
  }

  ghost predicate IsUnit(j: Json)
  {
    exists text ::
      && j == Obj(map["path" := Str("/etc/systemd/system/configure-lo.service"), "permissions" := Str("0644"),
                      "owner" := Str("root:root"), "content" := Str(text)])
      && Contains(text, "ExecStart=" + "/usr/local/bin/configure-lo.sh" + "\n")
      && Contains(text, "[Install]\nWantedBy=multi-user.target\n")
  }

  lemma IsContained(before: string, part: string, after: string)
    ensures Contains(before + part + after, part)
  {
  }

  lemma ScriptParts(shebang: string, show: string, grep: string, then_: string, add: string, ip: string, dev: string,
                    end: string)
    ensures var text := shebang + show + grep + ip + then_ + add + ip + dev + end;
      && Contains(text, grep + ip + then_) && Contains(text, add + ip + dev) && shebang <= text
  {
    var text := shebang + show + grep + ip + then_ + add + ip + dev + end;
    IsContained(shebang + show, grep + ip + then_, add + ip + dev + end);
    assert text == (shebang + show) + (grep + ip + then_) + (add + ip + dev + end);
    IsContained(shebang + show + grep + ip + then_, add + ip + dev, end);
    assert text == (shebang + show + grep + ip + then_) + (add + ip + dev) + end;
  }

  lemma UnitParts(head: string, exec: string, script: string, end: string, remain: string, install: string)
    ensures var text := head + exec + script + end + remain + install;
      Contains(text, exec + script + end) && Contains(text, install)
  {
    var text := head + exec + script + end + remain + install;
    IsContained(head, exec + script + end, remain + install);
    assert text == head + (exec + script + end) + (remain + install);
    IsContained(head + exec + script + end + remain, install, "");
    assert text == (head + exec + script + end + remain) + install + "";
  }

  lemma ScriptAddsTheAddress(ip: string)
    ensures IsScriptFor(LoopbackFiles(ip)[0], ip)
  {
    ScriptParts("#!/bin/sh\n", "ip addr show dev lo | ", "grep -q '", "' || ", "ip addr add ", ip, "/32 dev lo", "\n");
  }

  lemma UnitRunsTheScript(ip: string)
    ensures IsUnit(LoopbackFiles(ip)[1])
  {
    UnitParts(
      "[Unit]\nDescription=Add persistent loopback address\nAfter=network-pre.target\n" +
      "Wants=network-pre.target\nBefore=kubelet.service\n\n[Service]\nType=oneshot\n",
      "ExecStart=", "/usr/local/bin/configure-lo.sh", "\n", "RemainAfterExit=yes\n\n",
      "[Install]\nWantedBy=multi-user.target\n");
  }

  /** The augmented configuration has the block for the address, and nothing else is changed. */
  lemma BlockIsThere(cfg: map<string, Json>, ip: string)
    ensures HasBlock(cfg, Augment(cfg, ip), ip)
  {
    var out := Augment(cfg, ip);
    assert WRITE_FILES[0] != RUNCMD[0];
    ListsAfter(cfg, LoopbackFiles(ip), LoopbackCommands(UNIT_NAME));
    ScriptAddsTheAddress(ip);
    UnitRunsTheScript(ip);
  }

  // ---------- the shapes of a secret's text ----------

  predicate Blank(s: string)
  { forall i :: 0 <= i < |s| ==> IsSpace(s[i]) }

  predicate Trimmed(s: string)
  { s != "" ==> !IsSpace(s[0]) && !IsSpace(s[|s| - 1]) }

  predicate Headed(s: string)
  { "#cloud-config" <= s || "#cloud-boothook" <= s }

  /** A text with a header line and a body, a header alone, or a body alone, with space around. */
  datatype Shape =
    | WithHeader(before: string, line: string, gap: string, body: string, after: string)
    | HeaderAlone(before: string, line: string, after: string)
    | NoHeader(before: string, body: string, after: string)
  {
    predicate Valid()
    {
      && Blank(before) && Blank(after)
      && match this
         case WithHeader(_, line, gap, body, _) =>
           Headed(line) && '\n' !in line && Blank(gap) && Trimmed(body) && body != ""
         case HeaderAlone(_, line, _) => Headed(line) && '\n' !in line && Trimmed(line)
         case NoHeader(_, body, _) => !Headed(body) && Trimmed(body)
    }

    function Text(): string
    {
      match this
      case WithHeader(_, line, gap, body, _) => before + line + "\n" + gap + body + after
      case HeaderAlone(_, line, _) => before + line + after
      case NoHeader(_, body, _) => before + body + after
    }

    /** What the YAML library is to make of it. */
    function Value(lib: Library): Option<Json>
    {
      match this
      case WithHeader(_, _, _, body, _) => lib.convert(body)
      case HeaderAlone(_, _, _) => None
      case NoHeader(_, body, _) => lib.convert(body)
    }
  }

  lemma HeadersAre(s: string)
    ensures HasHeader(s) <==> Headed(s)
  {
    if "#cloud-config-archive" <= s {
      assert "#cloud-config-archive"[..|"#cloud-config"|] == "#cloud-config";
      assert s[..|"#cloud-config"|] == "#cloud-config";
    }
  }

  lemma TrimmedSpace(before: string, text: string, after: string)
    requires Blank(before) && Blank(after) && Trimmed(text)
    ensures TrimSpace(before + text + after) == text
  {
    if text == "" {
      assert before + text + after == before + after + "";
      TrimLeftDrops(before + after, "");
    } else {
      TrimmedText(before, text, after);
    }
  }

  lemma HeaderIsCut(before: string, line: string, gap: string, body: string, after: string)
    requires WithHeader(before, line, gap, body, after).Valid()
    ensures Stripped(before + line + "\n" + gap + body + after) == Some(body)
  {
    var doc := line + "\n" + (gap + body);
    assert before + line + "\n" + gap + body + after == before + doc + after;
    assert doc[0] == '#' && doc[|doc| - 1] == body[|body| - 1];
    TrimmedSpace(before, doc, after);
    FirstNewline(line, gap + body);
    assert doc[|line| + 1..] == gap + body;
    assert doc[..|line|] == line;
    assert Headed(doc);
    HeadersAre(doc);
    TrimmedSpace(gap, body, "");
    assert gap + body + "" == gap + body;
  }

  lemma {:induction false} NoNewline(s: string)
    requires '\n' !in s
    ensures NewlineIn(s) == None
  {
    if s != "" {
      NoNewline(s[1..]);
    }
  }

  /** What any text of a secret comes to: the value of its body, if it has one. */
  lemma ShapeDecides(lib: Library, s: Shape)
    requires s.Valid()
    ensures Converted(lib, s.Text()) == s.Value(lib)
  {
    match s
    case WithHeader(before, line, gap, body, after) => HeaderIsCut(before, line, gap, body, after);
    case HeaderAlone(before, line, after) =>
      TrimmedSpace(before, line, after);
      HeadersAre(line);
      NoNewline(line);
    case NoHeader(before, body, after) =>
      TrimmedSpace(before, body, after);
      HeadersAre(body);
  }

  /** Space, then what does not begin with any. */
  lemma {:induction false} LeftSpace(s: string) returns (space: string, rest: string)
    ensures s == space + rest && Blank(space) && (rest != "" ==> !IsSpace(rest[0]))
    decreases |s|
  {
    space, rest := "", s;
    if s != "" && IsSpace(s[0]) {
      space, rest := LeftSpace(s[1..]);
      assert s == [s[0]] + space + rest;
      space := [s[0]] + space;
    }
  }

  lemma {:induction false} RightSpace(s: string) returns (rest: string, space: string)
    ensures s == rest + space && Blank(space) && (rest != "" ==> !IsSpace(rest[|rest| - 1]))
    decreases |s|
  {
    rest, space := s, "";
    if s != "" && IsSpace(s[|s| - 1]) {
      rest, space := RightSpace(s[..|s| - 1]);
      assert s == rest + (space + [s[|s| - 1]]);
      space := space + [s[|s| - 1]];
    }
  }

  lemma Core(s: string) returns (before: string, text: string, after: string)
    ensures s == before + text + after && Blank(before) && Blank(after) && Trimmed(text)
  {
    var rest;
    before, rest := LeftSpace(s);
    text, after := RightSpace(rest);
    assert s == before + text + after;
    if text != "" {
      assert text[0] == rest[0];
    }
  }

  lemma {:induction false} FirstLine(s: string) returns (line: string, rest: string)
    requires '\n' in s
    ensures s == line + "\n" + rest && '\n' !in line
  {
    if s[0] == '\n' {
      line, rest := "", s[1..];
    } else {
      line, rest := FirstLine(s[1..]);
      assert s == [s[0]] + line + "\n" + rest;
      line := [s[0]] + line;
    }
  }

  lemma HeaderOfLine(text: string, line: string, rest: string)
    requires text == line + "\n" + rest && '\n' !in line && Headed(text)
    ensures Headed(line)
  {
    assert text[|line|] == '\n';
    assert line <= text;
  }

  lemma BodyIsThere(text: string, line: string, gap: string, body: string)
    requires text == line + "\n" + gap + body && Trimmed(text) && Blank(gap)
    ensures body != ""
  {
    assert (line + "\n" + gap)[|line| + |gap|] == if gap == "" then '\n' else gap[|gap| - 1];
    assert body == "" ==> IsSpace(text[|line| + |gap|]);
  }

  lemma HeaderLine(text: string) returns (line: string, gap: string, body: string)
    requires Headed(text) && Trimmed(text) && '\n' in text
    ensures text == line + "\n" + (gap + body) && Headed(line) && '\n' !in line
    ensures Blank(gap) && Trimmed(body) && body != ""
  {
    var rest;
    line, rest := FirstLine(text);
    HeaderOfLine(text, line, rest);
    gap, body := LeftSpace(rest);
    assert text == line + "\n" + gap + body;
    BodyIsThere(text, line, gap, body);
    assert body[|body| - 1] == text[|text| - 1];
  }

  lemma JoinsUp(before: string, line: string, gap: string, body: string, after: string)
    ensures before + line + "\n" + gap + body + after == before + (line + "\n" + (gap + body)) + after
  {
  }

  /** Every text has one of the shapes. */
  lemma EveryTextHasAShape(t: string) returns (s: Shape)
    ensures s.Valid() && s.Text() == t
  {
    var before, text, after := Core(t);
    if !Headed(text) {
      s := NoHeader(before, text, after);
    } else if '\n' !in text {
      s := HeaderAlone(before, text, after);
    } else {
      var line, gap, body := HeaderLine(text);
      JoinsUp(before, line, gap, body, after);
      s := WithHeader(before, line, gap, body, after);
    }
  }

  /** A node that is no control-plane node gets the value of its secret's body, and nothing if that
      does not convert or there is none. */
  lemma WorkerGetsItsSecret(lib: Library, s: Shape, ip: string)
    requires s.Valid()
    ensures UserData(lib, s.Text(), false, ip) ==
      match s
      case WithHeader(_, _, _, body, _) => lib.convert(body)
      case HeaderAlone(_, _, _) => None
      case NoHeader(_, body, _) => lib.convert(body)
  {
    ShapeDecides(lib, s);
  }

  lemma ObjectIsSent(lib: Library, secret: string, ip: string, cfg: map<string, Json>)
    requires Document(lib, secret) == Some(cfg) && BracesAround(lib.marshal(Obj(Augment(cfg, ip))))
    ensures UserData(lib, secret, true, ip) == lib.convert(lib.marshal(Obj(Augment(cfg, ip))))
  {
    ReconversionIsIdentity(lib, cfg, ip);
  }

  /** What is read of a secret of any shape. */
  lemma DocumentOf(lib: Library, s: Shape)
    requires s.Valid()
    ensures var raw, doc := s.Value(lib), Document(lib, s.Text());
      && (doc.None? <==> raw.None? || !raw.value.Obj? || !InRange(lib, raw.value))
      && (doc.Some? ==> Obj(doc.value) == Rounded(lib, raw.value))
      && (doc.Some? && Exact(lib, raw.value) ==> Obj(doc.value) == raw.value)
  {
    ShapeDecides(lib, s);
    if s.Value(lib).Some? && Exact(lib, s.Value(lib).value) {
      ExactIsKept(lib, s.Value(lib).value);
    }
  }

  /** A control-plane node gets what the YAML library reads of its own configuration with the block
      added, and nothing if its secret holds no object that can be read. */
  lemma ControlPlaneGetsTheBlock(lib: Library, s: Shape, ip: string) returns (out: map<string, Json>)
    requires s.Valid()
    ensures var raw, user := s.Value(lib), UserData(lib, s.Text(), true, ip);
      if raw.None? || !raw.value.Obj? || !InRange(lib, raw.value) then user.None?
      else
        && HasBlock(Rounded(lib, raw.value).fields, out, ip)
        && (Exact(lib, raw.value) ==> HasBlock(raw.value.fields, out, ip))
        && (BracesAround(lib.marshal(Obj(out))) ==> user == lib.convert(lib.marshal(Obj(out))))
  {
    DocumentOf(lib, s);
    out := map[];
    var doc := Document(lib, s.Text());
    if doc.Some? {
      out := AugmentedIsSent(lib, s.Text(), ip, doc.value);
    }
  }

  lemma AugmentedIsSent(lib: Library, secret: string, ip: string, cfg: map<string, Json>)
    returns (out: map<string, Json>)
    requires Document(lib, secret) == Some(cfg)
    ensures HasBlock(cfg, out, ip)
    ensures BracesAround(lib.marshal(Obj(out))) ==>
              UserData(lib, secret, true, ip) == lib.convert(lib.marshal(Obj(out)))
  {
    out := Augment(cfg, ip);
    BlockIsThere(cfg, ip);
    if BracesAround(lib.marshal(Obj(out))) {
      ObjectIsSent(lib, secret, ip, cfg);
    }
  }

  // ---------- the code ----------

  method CloudInitYAMLToJSON(lib: Library, userData: string) returns (r: Option<Json>)
    ensures r == Converted(lib, userData)
    ensures forall s: Shape :: s.Valid() && s.Text() == userData ==> r == s.Value(lib)
  {
    forall s: Shape | s.Valid() && s.Text() == userData ensures Converted(lib, userData) == s.Value(lib) {
      ShapeDecides(lib, s);
    }
    var b := TrimSpace(userData);
    if HEADERS[0] <= b || HEADERS[1] <= b || HEADERS[2] <= b {
      var i := NewlineIn(b);
      if i.None? || i.value >= |b| {
        return None;
      }
      b := TrimSpace(b[i.value + 1..]);
    }
    r := lib.convert(b);
  }

  /** The configuration map is updated in place, key by key. */
  method AppendBlock(fields: map<string, Json>, files: seq<Json>, commands: seq<Json>)
    returns (cfg: map<string, Json>)
    ensures cfg == AddBlock(fields, files, commands)
  {
    cfg := fields;
    var writeFiles: seq<Json> := [];
    if WRITE_FILES in cfg && cfg[WRITE_FILES].Arr? {
      writeFiles := cfg[WRITE_FILES].items;
    }
    writeFiles := writeFiles + files;
    cfg := cfg[WRITE_FILES := Arr(writeFiles)];

    var runcmd: seq<Json> := [];
    assert WRITE_FILES[0] != RUNCMD[0];
    if RUNCMD in cfg && cfg[RUNCMD].Arr? {
      runcmd := cfg[RUNCMD].items;
    }
    runcmd := runcmd + commands;
    cfg := cfg[RUNCMD := Arr(runcmd)];
  }

  method AddPersistentLoAddressToCloudInit(lib: Library, data: string, addr: string) returns (r: Option<string>)
    ensures r.Some? <==> Document(lib, data).Some?
    ensures r.Some? ==>
      var cfg := Document(lib, data).value;
      r.value == lib.marshal(Obj(Augment(cfg, addr))) && HasBlock(cfg, Augment(cfg, addr), addr)
  {
    var raw := CloudInitYAMLToJSON(lib, data);
    if raw.None? {
      return None;
    }
    var fields := Decoded(lib, raw.value);
    if fields.None? {
      return None;
    }
    var cfg := AppendBlock(fields.value, LoopbackFiles(addr), LoopbackCommands(UNIT_NAME));
    BlockIsThere(fields.value, addr);
    r := Some(lib.marshal(Obj(cfg)));
  }

  /** What the instance block sends for the text of a bootstrap secret. */
  method MakeUserData(lib: Library, secret: string, controlPlane: bool, ip: string) returns (r: Option<Json>)
    ensures r == UserData(lib, secret, controlPlane, ip)
    ensures !controlPlane ==> forall s: Shape :: s.Valid() && s.Text() == secret ==> r == s.Value(lib)
  {
    var value := secret;
    if controlPlane {
      var updated := AddPersistentLoAddressToCloudInit(lib, secret, ip);
      if updated.None? {
        return None;
      }
      value := updated.value;
    }
    r := CloudInitYAMLToJSON(lib, value);
  }

  // ---------- what the block amounts to ----------

  lemma ListsAfter(cfg: map<string, Json>, files: seq<Json>, commands: seq<Json>)
    ensures ListAt(AddBlock(cfg, files, commands), WRITE_FILES) == ListAt(cfg, WRITE_FILES) + files
    ensures ListAt(AddBlock(cfg, files, commands), RUNCMD) == ListAt(cfg, RUNCMD) + commands
  {
    assert WRITE_FILES[0] != RUNCMD[0];
  }

  lemma EntriesDiffer(ip: string, unit: string)
    ensures var fs := LoopbackFiles(ip); |fs| == 2 && fs[0] != fs[1]
    ensures var xs := LoopbackCommands(unit); |xs| == 3 && xs[0] != xs[1] && xs[0] != xs[2] && xs[1] != xs[2]
  {
    var fs, xs := LoopbackFiles(ip), LoopbackCommands(unit);
    assert "/usr"[1] != "/etc"[1];
    assert fs[0].fields["path"] != fs[1].fields["path"];
    assert |xs[0].items| != |xs[1].items| && |xs[0].items| != |xs[2].items|;
    assert "enable"[0] != "start"[0];
    assert xs[1].items[1] != xs[2].items[1];
  }

  /** Appending distinct entries raises the count of each of them by one, and of no other. */
  lemma {:induction false} CountAfter(old_: seq<Json>, added: seq<Json>, x: Json)
    requires forall i, j :: 0 <= i < j < |added| ==> added[i] != added[j]
    ensures multiset(old_ + added)[x] == multiset(old_)[x] + (if x in added then 1 else 0)
    decreases |added|
  {
    if added == [] {
      assert old_ + added == old_;
    } else {
      var front, last := added[..|added| - 1], added[|added| - 1];
      assert old_ + added == (old_ + front) + [last] && added == front + [last];
      CountAfter(old_, front, x);
    }
  }

  /** Exactly one block is added: every file and command occurs once more if it belongs to the
      block and as often as before if it does not, old entries keep their places, and no other
      key is touched. */
  lemma OneBlockAdded(cfg: map<string, Json>, ip: string)
    ensures var out := Augment(cfg, ip);
      && (forall key :: key != WRITE_FILES && key != RUNCMD ==>
            (key in out <==> key in cfg) && (key in cfg ==> out[key] == cfg[key]))
      && ListAt(cfg, WRITE_FILES) <= ListAt(out, WRITE_FILES) && ListAt(cfg, RUNCMD) <= ListAt(out, RUNCMD)
      && (forall f :: multiset(ListAt(out, WRITE_FILES))[f]
            == multiset(ListAt(cfg, WRITE_FILES))[f] + (if f in LoopbackFiles(ip) then 1 else 0))
      && (forall x :: multiset(ListAt(out, RUNCMD))[x]
            == multiset(ListAt(cfg, RUNCMD))[x] + (if x in LoopbackCommands(UNIT_NAME) then 1 else 0))
  {
    ListsAfter(cfg, LoopbackFiles(ip), LoopbackCommands(UNIT_NAME));
    EntriesDiffer(ip, UNIT_NAME);
    forall f { CountAfter(ListAt(cfg, WRITE_FILES), LoopbackFiles(ip), f); }
    forall x { CountAfter(ListAt(cfg, RUNCMD), LoopbackCommands(UNIT_NAME), x); }
  }

  /** The block is not idempotent: were the augmented text ever written back to the secret, a
      retry would add it again. */
  lemma AugmentTwiceAddsTwo(cfg: map<string, Json>, ip: string)
    ensures ListAt(Augment(Augment(cfg, ip), ip), WRITE_FILES)
      == ListAt(cfg, WRITE_FILES) + LoopbackFiles(ip) + LoopbackFiles(ip)
    ensures Augment(Augment(cfg, ip), ip) != Augment(cfg, ip)
  {
    ListsAfter(cfg, LoopbackFiles(ip), LoopbackCommands(UNIT_NAME));
    ListsAfter(Augment(cfg, ip), LoopbackFiles(ip), LoopbackCommands(UNIT_NAME));
    assert |ListAt(Augment(Augment(cfg, ip), ip), WRITE_FILES)| != |ListAt(Augment(cfg, ip), WRITE_FILES)|;
  }
}
