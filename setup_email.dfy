/**
 * The e-mail setup script: the checks on the answers to its prompts and
 * the rewrite of the `.env` text that stores the mail settings. The
 * answers and the old file text are inputs; reading the terminal and
 * writing the file are not modelled.
 */
module SetupEmail {
  import opened Common

  const InvalidEmail := "\U{274C} Invalid email address"
  const EmptyPassword := "\U{274C} Password cannot be empty"
  const InvalidChoice := "\U{274C} Invalid choice"

  const GmailServer := "smtp.gmail.com"
  const OutlookServer := "smtp-mail.outlook.com"
  const DefaultPort := 587

  /** The raw lines typed at the prompts; the server and port are read only for choice "3". */
  datatype Answers = Answers(email: string, password: string, choice: string, server: string, port: string)

  /**
   * How `setup_email_config` ends: it returns False after a message, an
   * exception escapes it (the port is not a numeral), or the new `.env`
   * text is written.
   */
  datatype Outcome = Aborted(message: string) | Failed(portText: string) | Saved(env: string, server: string, port: int)

  // ---------------------------------------------------------------------------
  // The settings block

  const Header := HeaderTitle + HeaderNote
  const HeaderTitle := "# Email Configuration "
  const HeaderNote := "(Updated by setup_email.py)"

  /** The setting names of the block, in the order it lists them. */
  const MailKeys: seq<string> := ["MAIL_SERVER=", "MAIL_PORT=", "MAIL_USE_TLS=", "MAIL_USERNAME=", "MAIL_PASSWORD="]

  /** str(n) for any integer. */
  function IntText(n: int): (r: string)
    ensures r != []
  {
    if n < 0 then "-" + NatToString(-n) else NatToString(n)
  }

  /** The lines of the block between its leading and trailing newline. */
  function BlockLines(server: string, port: string, email: string, password: string): seq<string>
  {
    var values := [server, port, "true", email, password];
    [Header] + seq(5, k requires 0 <= k < 5 => MailKeys[k] + values[k])
  }

  function Block(server: string, port: string, email: string, password: string): string
  {
    "\n" + Join(BlockLines(server, port, email, password), '\n') + "\n"
  }

  /**
   * The block lists MAIL_SERVER, MAIL_PORT, MAIL_USE_TLS=true, MAIL_USERNAME
   * and MAIL_PASSWORD, one per line and in that order, after its comment
   * line; when no value holds a newline, those are exactly its lines.
   */
  lemma BlockSettings(server: string, port: string, email: string, password: string)
    requires '\n' !in server && '\n' !in port && '\n' !in email && '\n' !in password
    ensures var lines := BlockLines(server, port, email, password);
      && Split(Join(lines, '\n'), '\n') == lines
      && |lines| == 6 && lines[0] == Header
      && (forall k :: 0 <= k < 5 ==> StartsWith(lines[k + 1], MailKeys[k]))
      && lines[3] == "MAIL_USE_TLS=true"
      && lines[1][|MailKeys[0]|..] == server && lines[2][|MailKeys[1]|..] == port
      && lines[4][|MailKeys[3]|..] == email && lines[5][|MailKeys[4]|..] == password
  {
    var lines := BlockLines(server, port, email, password);
    var values := [server, port, "true", email, password];
    PlainConstants();
    forall k | 0 <= k < |lines|
      ensures '\n' !in lines[k]
    {
      if k > 0 {
        assert lines[k] == MailKeys[k - 1] + values[k - 1];
        assert '\n' !in values[k - 1];
        CharNotInConcat('\n', MailKeys[k - 1], values[k - 1]);
      }
    }
    SplitJoin(lines, '\n');
  }

  lemma PlainHeader()
    ensures '\n' !in Header
  {
    assert '\n' !in HeaderTitle;
    assert '\n' !in HeaderNote;
    CharNotInConcat('\n', HeaderTitle, HeaderNote);
  }

  lemma PlainConstants()
    ensures '\n' !in Header
    ensures forall k :: 0 <= k < |MailKeys| ==> '\n' !in MailKeys[k]
  {
    PlainHeader();
    forall k | 0 <= k < |MailKeys|
      ensures '\n' !in MailKeys[k]
    {
      match k
      case 0 =>
      case 1 =>
      case 2 =>
      case 3 =>
      case 4 =>
    }
  }

  // ---------------------------------------------------------------------------
  // The line filter

  /** A line `line.strip()` turns into the empty string. */
  predicate Blank(line: string)
  {
    AllSpace(line)
  }

  /**
   * Whether the rewrite drops line `i`: a MAIL_ setting, or a blank line
   * that directly follows a dropped line.
   */
  predicate Dropped(lines: seq<string>, i: nat)
    requires i < |lines|
  {
    StartsWith(lines[i], "MAIL_") || (Blank(lines[i]) && i > 0 && Dropped(lines, i - 1))
  }

  /** The lines among the first `n` that the rewrite keeps, in their order. */
  function KeptUpTo(lines: seq<string>, n: nat): seq<string>
    requires n <= |lines|
  {
    if n == 0 then []
    else KeptUpTo(lines, n - 1) + (if Dropped(lines, n - 1) then [] else [lines[n - 1]])
  }

  function Kept(lines: seq<string>): seq<string>
  {
    KeptUpTo(lines, |lines|)
  }

  /** The `skip_next` loop over the lines of the old file. */
  method RewriteLines(lines: seq<string>) returns (newLines: seq<string>)
    ensures newLines == Kept(lines)
  {
    newLines := [];
    var skipNext := false;
    for i := 0 to |lines|
      invariant newLines == KeptUpTo(lines, i)
      invariant skipNext == (i > 0 && Dropped(lines, i - 1))
    {
      var line := lines[i];
      if StartsWith(line, "MAIL_") {
        skipNext := true;
        continue;
      }
      StripSpec(line);
      if skipNext && Strip(line) == [] {
        continue;
      }
      skipNext := false;
      newLines := newLines + [line];
    }
  }

  /** No kept line is a MAIL_ setting. */
  lemma {:induction false} KeptNoMail(lines: seq<string>, n: nat)
    requires n <= |lines|
    ensures forall k :: 0 <= k < |KeptUpTo(lines, n)| ==> !StartsWith(KeptUpTo(lines, n)[k], "MAIL_")
  {
    if n > 0 {
      KeptNoMail(lines, n - 1);
    }
  }

  /** Every kept line is a line of the old file, and no line gains a newline. */
  lemma {:induction false} KeptFromLines(lines: seq<string>, n: nat)
    requires n <= |lines|
    ensures forall k :: 0 <= k < |KeptUpTo(lines, n)| ==> KeptUpTo(lines, n)[k] in lines[..n]
  {
    if n > 0 {
      KeptFromLines(lines, n - 1);
      assert lines[..n - 1] <= lines[..n];
    }
  }

  /** A line that is neither a MAIL_ setting nor blank always survives the rewrite. */
  lemma {:induction false} KeptContent(lines: seq<string>, n: nat, i: nat)
    requires i < n <= |lines|
    requires !StartsWith(lines[i], "MAIL_") && !Blank(lines[i])
    ensures lines[i] in KeptUpTo(lines, n)
  {
    if i < n - 1 {
      KeptContent(lines, n - 1, i);
    }
  }

  /** Without MAIL_ lines the filter keeps every line, blank ones included. */
  lemma {:induction false} KeptWithoutMail(lines: seq<string>, n: nat)
    requires n <= |lines|
    requires forall i :: 0 <= i < |lines| ==> !StartsWith(lines[i], "MAIL_")
    ensures KeptUpTo(lines, n) == lines[..n]
    ensures n > 0 ==> !Dropped(lines, n - 1)
  {
    if n > 0 {
      KeptWithoutMail(lines, n - 1);
      assert lines[..n] == lines[..n - 1] + [lines[n - 1]];
    }
  }

  // ---------------------------------------------------------------------------
  // The new file text

  /** `env_content` after the update, given the old text and the block. */
  function NewEnv(content: string, block: string): string
  {
    if Contains(content, "MAIL_USERNAME=") then Join(Kept(Split(content, '\n')), '\n') + block
    else content + block
  }

  /**
   * The new text always ends with the block. When the old text has no
   * `MAIL_USERNAME=` anywhere it is kept whole in front of the block;
   * otherwise no line in front of the block is a MAIL_ setting.
   */
  lemma NewEnvSpec(content: string, block: string)
    ensures |block| <= |NewEnv(content, block)|
    ensures NewEnv(content, block)[|NewEnv(content, block)| - |block|..] == block
    ensures !OccursIn("MAIL_USERNAME=", content) ==> NewEnv(content, block) == content + block
    ensures OccursIn("MAIL_USERNAME=", content) ==>
      var front := NewEnv(content, block)[..|NewEnv(content, block)| - |block|];
      forall k :: 0 <= k < |Split(front, '\n')| ==> !StartsWith(Split(front, '\n')[k], "MAIL_")
  {
    ContainsCorrect(content, "MAIL_USERNAME=");
    var r := NewEnv(content, block);
    if Contains(content, "MAIL_USERNAME=") {
      var lines := Split(content, '\n');
      var kept := Kept(lines);
      var front := Join(kept, '\n');
      assert r == front + block;
      assert r[..|r| - |block|] == front;
      KeptNoMail(lines, |lines|);
      if kept == [] {
        assert Split(front, '\n') == [[]];
      } else {
        KeptFromLines(lines, |lines|);
        assert lines[..|lines|] == lines;
        forall k | 0 <= k < |kept|
          ensures '\n' !in kept[k]
        {
          var j :| 0 <= j < |lines| && lines[j] == kept[k];
        }
        SplitJoin(kept, '\n');
      }
    } else {
      assert r == content + block;
    }
    assert r[|r| - |block|..] == block;
  }

  // ---------------------------------------------------------------------------
  // setup_email_config

  /** The provider menu's answer: a server and port, a port that is not a numeral, or no such entry. */
  datatype Provider = Provider(server: string, port: int) | BadPort(text: string) | NoSuchChoice

  /** The menu: "1" and "2" fix the server and port 587; "3" reads both, an empty port meaning 587. */
  method ChooseProvider(choice: string, serverLine: string, portLine: string) returns (r: Provider)
    ensures choice == "1" ==> r == Provider(GmailServer, DefaultPort)
    ensures choice == "2" ==> r == Provider(OutlookServer, DefaultPort)
    ensures choice == "3" && Strip(portLine) == [] ==> r == Provider(Strip(serverLine), DefaultPort)
    ensures choice == "3" && Strip(portLine) != [] ==>
      r == if ParseInt(Strip(portLine)).Some? then Provider(Strip(serverLine), ParseInt(Strip(portLine)).value)
           else BadPort(Strip(portLine))
    ensures choice != "1" && choice != "2" && choice != "3" ==> r == NoSuchChoice
  {
    if choice == "1" {
      r := Provider(GmailServer, DefaultPort);
    } else if choice == "2" {
      r := Provider(OutlookServer, DefaultPort);
    } else if choice == "3" {
      var server := Strip(serverLine);
      var portText := Strip(portLine);
      if portText == [] {
        r := Provider(server, DefaultPort);
      } else {
        var parsed := ParseInt(portText);
        r := if parsed.Some? then Provider(server, parsed.value) else BadPort(portText);
      }
    } else {
      r := NoSuchChoice;
    }
  }

  /** The update of the `.env` text: rewrite when a username is already set, append otherwise. */
  method UpdateEnv(content: string, block: string) returns (env: string)
    ensures env == NewEnv(content, block)
  {
    if Contains(content, "MAIL_USERNAME=") {
      var lines := Split(content, '\n');
      var newLines := RewriteLines(lines);
      env := Join(newLines, '\n') + block;
    } else {
      env := content + block;
    }
  }

  /** The address check: non-empty and holding an '@'. */
  predicate PlausibleEmail(email: string)
  {
    email != [] && '@' in email
  }

  /**
   * `setup_email_config` after the prompts, given the answers and the old
   * `.env` text (None when the file does not exist).
   */
  method SetupEmailConfig(answers: Answers, existing: Option<string>) returns (r: Outcome)
    ensures !PlausibleEmail(Strip(answers.email)) ==> r == Aborted(InvalidEmail)
    ensures PlausibleEmail(Strip(answers.email)) && Strip(answers.password) == [] ==> r == Aborted(EmptyPassword)
    ensures r.Failed? || r.Saved? ==> PlausibleEmail(Strip(answers.email)) && Strip(answers.password) != []
    ensures r.Aborted? && PlausibleEmail(Strip(answers.email)) && Strip(answers.password) != [] ==>
      r.message == InvalidChoice
    ensures PlausibleEmail(Strip(answers.email)) && Strip(answers.password) != [] && Strip(answers.choice) == "1" ==>
      r.Saved? && r.server == GmailServer && r.port == DefaultPort
    ensures PlausibleEmail(Strip(answers.email)) && Strip(answers.password) != [] && Strip(answers.choice) == "2" ==>
      r.Saved? && r.server == OutlookServer && r.port == DefaultPort
    ensures (PlausibleEmail(Strip(answers.email)) && Strip(answers.password) != []
             && Strip(answers.choice) !in {"1", "2", "3"}) ==> r == Aborted(InvalidChoice)
    ensures (PlausibleEmail(Strip(answers.email)) && Strip(answers.password) != [] && Strip(answers.choice) == "3"
             && Strip(answers.port) == []) ==>
      r.Saved? && r.server == Strip(answers.server) && r.port == DefaultPort
    ensures (PlausibleEmail(Strip(answers.email)) && Strip(answers.password) != [] && Strip(answers.choice) == "3"
             && Strip(answers.port) != []) ==>
      if ParseInt(Strip(answers.port)).Some?
      then r.Saved? && r.server == Strip(answers.server) && r.port == ParseInt(Strip(answers.port)).value
      else r == Failed(Strip(answers.port))
    ensures r.Failed? ==> Strip(answers.choice) == "3"
    ensures r.Saved? ==>
      r.env == NewEnv(if existing.Some? then existing.value else "",
                      Block(r.server, IntText(r.port), Strip(answers.email), Strip(answers.password)))
  {
    var email := Strip(answers.email);
    if !PlausibleEmail(email) {
      return Aborted(InvalidEmail);
    }
    var password := Strip(answers.password);
    if password == [] {
      return Aborted(EmptyPassword);
    }
    var provider := ChooseProvider(Strip(answers.choice), answers.server, answers.port);
    match provider {
      case NoSuchChoice =>
        return Aborted(InvalidChoice);
      case BadPort(text) =>
        return Failed(text);
      case Provider(server, port) =>
        var content := if existing.Some? then existing.value else "";
        var env := UpdateEnv(content, Block(server, IntText(port), email, password));
        return Saved(env, server, port);
    }
  }
}
