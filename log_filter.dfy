/**
  The redaction decision shared by both logging back-ends: given a message
  template and its ordered arguments, decide whether the event may be logged
  (`true`) or must be suppressed (`false`) because it echoes a command that
  carries a password or another secret.
 */
module LogFilter {

  /** An element of the argument array: a `String`, or any other object
      (`null` included). Only strings can be inspected. */
  datatype Arg = Str(s: string) | Other

  /** The three command-echo templates the engine recognises. */
  const IssuedServerCommand: string := "{} issued server command: {}"
  const ExecutedCommandIndexed: string := "{0} executed command: /{1}"
  const ExecutedCommandArrow: string := "{} -> executed command /{}"

  /** Command prefixes whose echo is suppressed; each ends with the space that
      separates the command name from its arguments. */
  const ProtectedCommands: set<string> := {
    "/login ",
    "/l ",
    "/log ",
    "/register ",
    "/reg ",
    "/premium ",
    "/autologin ",
    "/2faconfirm ",
    "/changepassword ",
    "/changepass ",
    "/passch ",
    "/passwd ",
    "/confirmpasswordreset ",
    "/setemail ",
    "/librelogin user register ",
    "/librelogin user pass-change "
  }

  predicate Recognised(message: string) {
    message == IssuedServerCommand || message == ExecutedCommandIndexed || message == ExecutedCommandArrow
  }

  /** The command line a recognised template echoes: the argument itself for
      the first template, the argument behind a restored leading slash for the
      two that print the slash in the template. */
  function CommandText(message: string, command: string): string {
    if message == IssuedServerCommand then command else "/" + command
  }

  /** `text` begins with one of the protected prefixes (case-sensitive). */
  predicate StartsWithProtected(text: string) {
    exists p :: p in ProtectedCommands && p <= text
  }

  /** The second argument of an event makes it sensitive when it is a string,
      the template is recognised and the command text it echoes starts with a
      protected prefix. */
  predicate Sensitive(message: string, command: Arg) {
    command.Str? && Recognised(message) && StartsWithProtected(CommandText(message, command.s))
  }

  /** Reference definition of the verdict: an event is suppressed exactly when
      it has a second argument and that argument makes it sensitive. */
  predicate Allows(message: string, parameters: seq<Arg>) {
    !(|parameters| > 1 && Sensitive(message, parameters[1]))
  }

  /** The `switch` over the template: the text to inspect, or "" when the
      template is not one of the three. */
  function Executed(message: string, command: string): string {
    if message == IssuedServerCommand then command
    else if message == ExecutedCommandIndexed || message == ExecutedCommandArrow then "/" + command
    else ""
  }

  /** checkMessage as written: the guard on the argument array, the template
      switch, the empty-text shortcut, then a scan of the protected set that
      stops at the first prefix found. The set is visited in an arbitrary
      order, so the verdict is proved not to depend on that order. */
  method CheckMessage(message: string, parameters: seq<Arg>) returns (keep: bool)
    ensures keep == Allows(message, parameters)
  {
    if |parameters| <= 1 || !parameters[1].Str? {
      return true;
    }
    var executed := Executed(message, parameters[1].s);
    if executed == "" {
      EmptyTextNotProtected();
      return true;
    }
    var unvisited := ProtectedCommands;
    while unvisited != {}
      invariant unvisited <= ProtectedCommands
      invariant forall p :: p in ProtectedCommands && p !in unvisited ==> !(p <= executed)
      decreases unvisited
    {
      var command :| command in unvisited;
      if command <= executed {
        return false;
      }
      unvisited := unvisited - {command};
    }
    return true;
  }

  // ---------------------------------------------------------------------------
  // The protected set

  /** Every protected prefix starts with a slash and ends with a space. */
  lemma ProtectedShape(p: string)
    requires p in ProtectedCommands
    ensures |p| >= 3 && p[0] == '/' && p[|p| - 1] == ' '
  {
  }

  /** An empty text starts with no protected prefix. */
  lemma EmptyTextNotProtected()
    ensures !StartsWithProtected("")
  {
    forall p | p in ProtectedCommands ensures !(p <= "") {
      ProtectedShape(p);
    }
  }

  /** No protected prefix is a prefix of another one, so a text starts with
      at most one of them. */
  lemma PrefixFree(p: string, q: string)
    requires p in ProtectedCommands && q in ProtectedCommands
    requires q <= p
    ensures q == p
  {
    ProtectedShape(q);
    PrefixAgrees(q, p);
  }

  /** What a prefix shares with the sequence it begins: the second, third and
      last of its own characters. */
  lemma PrefixAgrees(q: string, p: string)
    ensures q <= p && |q| >= 3 ==> p[1] == q[1] && p[2] == q[2] && p[|q| - 1] == q[|q| - 1]
  {
  }

  /** A protected command name typed without its trailing space (and so
      without arguments) is not protected: the match is on whole tokens. */
  lemma BareCommandNotProtected(p: string)
    requires p in ProtectedCommands
    ensures !StartsWithProtected(p[..|p| - 1])
  {
    forall q | q in ProtectedCommands && q <= p[..|p| - 1] ensures false {
      PrefixFree(p, q);
    }
  }

  /** A command line without a space, that is a command typed without
      arguments, is never protected. */
  lemma SpacelessNotProtected(text: string)
    requires ' ' !in text
    ensures !StartsWithProtected(text)
  {
    forall p | p in ProtectedCommands ensures !(p <= text) {
      ProtectedShape(p);
      PrefixAgrees(p, text);
      assert |p| <= |text| ==> text[|p| - 1] in text;
    }
  }

  /** A text starts with at most one protected prefix. */
  lemma AtMostOneMatch(p: string, q: string, text: string)
    requires p in ProtectedCommands && q in ProtectedCommands
    requires p <= text && q <= text
    ensures p == q
  {
    if |p| <= |q| {
      assert p == q[..|p|];
      PrefixFree(q, p);
    } else {
      assert q == p[..|q|];
      PrefixFree(p, q);
    }
  }

  /** A prefix whose only space is its last character, met at the start of a
      command line, is exactly the line's first word and the space after it. */
  lemma TokenPrefix(p: string, w: string, rest: string)
    requires |p| >= 1 && p[|p| - 1] == ' ' && ' ' !in p[..|p| - 1]
    requires ' ' !in w
    requires p <= w + " " + rest
    ensures p == w + " "
  {
    var text := w + " " + rest;
    // The space ending p is not inside w, and the space after w is not
    // inside p's word, so both end at the same place.
    Contains(w, |p| - 1);
    Contains(p[..|p| - 1], |w|);
    assert text[|w|] == ' ';
    assert p == text[..|p|] && text[..|w| + 1] == w + " ";
  }

  lemma Contains(s: string, i: int)
    ensures 0 <= i < |s| ==> s[i] in s
  {
  }

  /** Apart from the two `/librelogin user` sub-commands, every protected
      prefix is a single word followed by its space. */
  lemma SingleWord(p: string)
    requires p in ProtectedCommands && !("/librelogin " <= p)
    ensures ' ' !in p[..|p| - 1]
  {
  }

  /** Matching is on whole tokens: a command line whose first word is not a
      protected command (nor the `/librelogin` command, whose protected forms
      span three words) is not protected, whatever follows the word. So
      `/loginstats foo` is kept although `/login ` protects `/login foo`. */
  lemma WholeToken(w: string, rest: string)
    requires ' ' !in w
    requires (w + " ") !in ProtectedCommands && w + " " != "/librelogin "
    ensures !StartsWithProtected(w + " " + rest)
  {
    forall p | p in ProtectedCommands ensures !(p <= w + " " + rest) {
      if p <= w + " " + rest {
        if "/librelogin " <= p {
          assert "/librelogin " <= w + " " + rest;
          TokenPrefix("/librelogin ", w, rest);
        } else {
          SingleWord(p);
          ProtectedShape(p);
          TokenPrefix(p, w, rest);
        }
      }
    }
  }

  /** Only commands whose name begins with one of the letters `l r p a c s`
      or the digit `2` can be protected. */
  lemma InitialNotProtected(text: string)
    requires |text| >= 2 && text[1] !in "lrpacs2"
    ensures !StartsWithProtected(text)
  {
  }

  /** Matching is case-sensitive: every protected prefix has a lower-case
      letter or a digit after the slash, so a command whose name begins with
      an upper-case letter is never protected. */
  lemma UpperCaseCommandNotProtected(text: string)
    requires |text| >= 2 && 'A' <= text[1] <= 'Z'
    ensures !StartsWithProtected(text)
  {
  }

  // ---------------------------------------------------------------------------
  // Properties of the verdict

  /** With fewer than two arguments, or a non-string second argument, the
      event is kept whatever the template. */
  lemma NothingToInspectKept(message: string, parameters: seq<Arg>)
    requires |parameters| <= 1 || !parameters[1].Str?
    ensures Allows(message, parameters)
  {
  }

  /** A template other than the three recognised ones is kept whatever the
      arguments. */
  lemma UnrecognisedTemplateKept(message: string, parameters: seq<Arg>)
    requires !Recognised(message)
    ensures Allows(message, parameters)
  {
  }

  /** Only the template and the second argument decide the verdict: the first
      argument and those after the second can be replaced at will. */
  lemma OnlySecondArgumentMatters(message: string, parameters: seq<Arg>, others: seq<Arg>)
    requires |parameters| > 1 <==> |others| > 1
    requires |parameters| > 1 ==> parameters[1] == others[1]
    ensures Allows(message, parameters) == Allows(message, others)
  {
  }

  /** For a recognised template with a string second argument, the event is
      suppressed exactly when the reconstructed command starts with a
      protected prefix. */
  lemma RecognisedVerdict(message: string, first: Arg, command: string, rest: seq<Arg>)
    requires Recognised(message)
    ensures Allows(message, [first, Str(command)] + rest) <==> !StartsWithProtected(CommandText(message, command))
  {
  }

  /** For every recognised template and every protected prefix, an event whose
      reconstructed command starts with that prefix is suppressed. */
  lemma ProtectedCommandDenied(message: string, first: Arg, command: string, rest: seq<Arg>, p: string)
    requires Recognised(message) && p in ProtectedCommands
    requires p <= CommandText(message, command)
    ensures !Allows(message, [first, Str(command)] + rest)
  {
    RecognisedVerdict(message, first, command, rest);
  }

  /** An empty command in the verbatim template leaves nothing to match. */
  lemma EmptyCommandKept(first: Arg, rest: seq<Arg>)
    ensures Allows(IssuedServerCommand, [first, Str("")] + rest)
  {
    EmptyTextNotProtected();
  }

  /** A player issuing `/login secret123` is not logged. */
  lemma IssuedLoginDenied()
    ensures !Allows(IssuedServerCommand, [Str("Alice"), Str("/login secret123")])
  {
    assert "/login " <= "/login secret123";
  }

  /** `/help` is logged normally. */
  lemma IssuedHelpKept()
    ensures Allows(IssuedServerCommand, [Str("Alice"), Str("/help")])
  {
    InitialNotProtected("/help");
  }

  /** The slash-less argument `reg mypassword` of the indexed template is
      inspected as `/reg mypassword` and suppressed. */
  lemma ExecutedRegisterDenied()
    ensures !Allows(ExecutedCommandIndexed, [Str("Bob"), Str("reg mypassword")])
  {
    assert "/reg " <= "/" + "reg mypassword";
  }

  /** `/loginstats`, `/loginstats foo`, `/LOGIN pw` and `/login` are not
      protected commands. */
  lemma NearMissesKept(first: Arg)
    ensures Allows(IssuedServerCommand, [first, Str("/loginstats")])
    ensures Allows(IssuedServerCommand, [first, Str("/loginstats foo")])
    ensures Allows(IssuedServerCommand, [first, Str("/LOGIN pw")])
    ensures Allows(IssuedServerCommand, [first, Str("/login")])
  {
    SpacelessNotProtected("/loginstats");
    assert "/loginstats" + " " == "/loginstats ";
    WholeToken("/loginstats", "foo");
    assert "/loginstats" + " " + "foo" == "/loginstats foo";
    UpperCaseCommandNotProtected("/LOGIN pw");
    BareCommandNotProtected("/login ");
  }
}
