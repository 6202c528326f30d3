/** Log and status messages (`Msg`): building a message from its subject
    build, its sender and a template, and rendering it with or without the
    signature prefix. */
module Messages {
  import opened Strings

  /** Priorities, from the most to the least severe. */
  const Error: int := 1
  const Warning: int := 2
  const Status: int := 3
  const Info: int := 4
  const BuildLog: int := 5
  const Debug: int := 6

  /** The build a message is about: nothing, a bare id, or a build object
      with its id and its `conf.number` ("" when unset). */
  datatype Subject = NoSubject | SubjectId(id: string) | SubjectBuild(id: string, number: string)

  /** Who sends the message: nobody, a bare id, or an object with an id and
      a `name` ("" when unset). */
  datatype Sender = NoSender | SenderId(id: string) | SenderObj(id: string, name: string)

  /** The fields of a message ("" stands for an unset field). The text is
      kept as the template and the arguments it was made from; `Text` is
      the formatted `message` field. */
  datatype Msg = Msg(priority: int, buildId: string, senderId: string, signature: string,
                     buildNumber: string, senderName: string, template: string, args: seq<string>)

  /** The argument of `toString`: absent, or a boolean. */
  datatype PrefixFlag = Unset | Flag(b: bool)

  function SubjectIdOf(b: Subject): string {
    match b
    case NoSubject => ""
    case SubjectId(id) => id
    case SubjectBuild(id, _) => id
  }

  function SenderIdOf(s: Sender): string {
    match s
    case NoSender => ""
    case SenderId(id) => id
    case SenderObj(id, _) => id
  }

  /** `signatureNames[code]`, which joins as "" for an unknown signature. */
  function SignatureName(code: string): string {
    if code == "A" then "[SA] Server"
    else if code == "AW" then "[AW] Agent"
    else if code == "C" then "[SC] Server"
    else if code == "CW" then "[CW] Client"
    else if code == "S" then "[S] Server"
    else ""
  }

  /** `new Msg(build, sender, signature, priority, message, args...)`, which runs
      `update` on a fresh message. */
  function Make(build: Subject, sender: Sender, signature: string, priority: int,
                template: string, args: seq<string>): (m: Msg)
    ensures m.priority == priority && m.signature == signature
    ensures m.buildId == SubjectIdOf(build) && m.senderId == SenderIdOf(sender)
    ensures m.buildNumber == (if build.SubjectBuild? then build.number else "")
    ensures m.senderName == (if sender.SenderObj? then sender.name else "")
    ensures m.template == template && m.args == args
  {
    Msg(priority, SubjectIdOf(build), SenderIdOf(sender), signature,
        if build.SubjectBuild? then build.number else "",
        if sender.SenderObj? then sender.name else "",
        template, args)
  }

  /** The `message` field: the template formatted with the sender id as
      `{0}`, the build id as `{1}` and the further arguments after them. */
  function Text(m: Msg): string {
    Format(m.template, [m.senderId, m.buildId] + m.args)
  }

  /** Whether `toString(flag)` leaves out the prefix. */
  predicate OmitsPrefix(m: Msg, flag: PrefixFlag) {
    flag == Flag(true) || (m.priority == BuildLog && flag != Flag(false))
  }

  /** The value `{0}` stands for when rendering: the name before the id. */
  function Who(m: Msg): string {
    if m.senderName != "" then m.senderName else m.senderId
  }

  /** The value `{1}` stands for when rendering: the number before the id. */
  function About(m: Msg): string {
    if m.buildNumber != "" then m.buildNumber else m.buildId
  }

  function Prefix(m: Msg): string {
    SignatureName(m.signature)
    + (if Who(m) != "" then " @{0}" else "")
    + (if About(m) != "" then " about #{1}" else "")
    + ": "
  }

  /** `toString(flag)`: the prefix (unless omitted) and the message text,
      formatted once more with `{0}` = who and `{1}` = about. */
  function Render(m: Msg, flag: PrefixFlag): string {
    var text := if OmitsPrefix(m, flag) then Text(m) else Prefix(m) + Text(m);
    Format(text, [Who(m), About(m)])
  }

  predicate NoBraces(s: string) {
    forall i :: 0 <= i < |s| ==> s[i] != '{'
  }

  /** With the prefix omitted, a message whose text has no placeholders
      renders as its text. */
  lemma RenderWithoutPrefix(m: Msg, flag: PrefixFlag)
    requires OmitsPrefix(m, flag) && NoBraces(Text(m))
    ensures Render(m, flag) == Text(m)
  {
    FormatPlain(Text(m), [Who(m), About(m)]);
  }

  /** With the prefix, a message whose text has no placeholders renders as
      the signature name, then ` @` and the sender (name before id) when
      there is one, then ` about #` and the build (number before id) when
      there is one, then `: ` and the text. */
  lemma RenderWithPrefix(m: Msg, flag: PrefixFlag)
    requires !OmitsPrefix(m, flag) && NoBraces(Text(m))
    ensures Render(m, flag) ==
              SignatureName(m.signature)
              + (if Who(m) != "" then " @" + Who(m) else "")
              + (if About(m) != "" then " about #" + About(m) else "")
              + ": " + Text(m)
  {
    var args := [Who(m), About(m)];
    var name := SignatureName(m.signature);
    var tail := ": " + Text(m);
    var about := if About(m) != "" then " about #{1}" else "";
    var who := if Who(m) != "" then " @{0}" else "";
    var aboutOut := if About(m) != "" then " about #" + About(m) else "";
    var whoOut := if Who(m) != "" then " @" + Who(m) else "";
    calc {
      Render(m, flag);
      { RenderPrefixed(m, flag); }
      Format(name + (who + (about + tail)), args);
      { FormatPlainPrefix(name, who + (about + tail), args); }
      name + Format(who + (about + tail), args);
      { WhoPart(Who(m), about + tail, args); }
      name + (whoOut + Format(about + tail, args));
      { AboutPart(About(m), tail, args); }
      name + (whoOut + (aboutOut + Format(tail, args)));
      { PlainTail(Text(m), args); }
      name + (whoOut + (aboutOut + tail));
    }
  }

  /** Rendering with the prefix formats the prefix and the text together. */
  lemma RenderPrefixed(m: Msg, flag: PrefixFlag)
    requires !OmitsPrefix(m, flag)
    ensures Render(m, flag) ==
              Format(SignatureName(m.signature) + ((if Who(m) != "" then " @{0}" else "")
                     + ((if About(m) != "" then " about #{1}" else "") + (": " + Text(m)))),
                     [Who(m), About(m)])
  {
    var who := if Who(m) != "" then " @{0}" else "";
    var about := if About(m) != "" then " about #{1}" else "";
    assert Prefix(m) + Text(m) == SignatureName(m.signature) + (who + (about + (": " + Text(m))));
  }

  lemma PlainTail(text: string, args: seq<string>)
    requires NoBraces(text)
    ensures Format(": " + text, args) == ": " + text
  {
    FormatPlain(": " + text, args);
  }

  lemma AboutPart(about: string, tail: string, args: seq<string>)
    requires |args| == 2 && args[1] == about
    ensures Format((if about != "" then " about #{1}" else "") + tail, args)
            == (if about != "" then " about #" + about else "") + Format(tail, args)
  {
    if about != "" {
      assert " about #{1}" + tail == " about #" + (['{', ('0' as int + 1) as char, '}'] + tail);
      FormatTagged(" about #", 1, tail, args);
    } else {
      assert "" + tail == tail;
    }
  }

  lemma WhoPart(who: string, tail: string, args: seq<string>)
    requires |args| == 2 && args[0] == who
    ensures Format((if who != "" then " @{0}" else "") + tail, args)
            == (if who != "" then " @" + who else "") + Format(tail, args)
  {
    if who != "" {
      assert " @{0}" + tail == " @" + (['{', ('0' as int + 0) as char, '}'] + tail);
      FormatTagged(" @", 0, tail, args);
    } else {
      assert "" + tail == tail;
    }
  }
}
