/**
 * The mail notifier's configuration and send guard: the SMTP port, server,
 * credentials and recipient list read from environment variables, the
 * checks made before a report mail is built, its headers, and the tally of
 * Bollinger labels shown in its body.
 *
 * The environment is a parameter (variable name to value). Building the
 * MIME message, reading the CSV attachment and talking to the SMTP server
 * are not part of this model; a message that passes the guard is returned
 * as a value.
 */
module EmailSender {
  import opened Wrappers
  import opened Text
  import opened Signals

  const DefaultPort: int := 465
  const DefaultServer: string := "smtp.qq.com"
  const SubjectPrefix: string := "\U{1F4CA} 基金布林带策略晨报 - "

  /** The process environment, as the variables that are set. */
  type Environment = map<string, string>

  /** `os.environ.get(name)` */
  function Get(env: Environment, name: string): Option<string>
  {
    if name in env then Some(env[name]) else None
  }

  /** `not v or not v.strip()`: unset, empty or only whitespace. */
  predicate Blank(v: Option<string>)
  {
    v.None? || Strip(v.value) == ""
  }

  /** The variable the port is read from: SMTP_PORT when it is not blank, else SMTP. */
  function PortSetting(env: Environment): Option<string>
  {
    if Blank(Get(env, "SMTP_PORT")) then Get(env, "SMTP") else Get(env, "SMTP_PORT")
  }

  /**
   * The SMTP port: the chosen variable stripped and read as a decimal
   * integer; 465 when both are blank or the text is not an integer.
   */
  function SmtpPort(env: Environment): (port: int)
    ensures port != DefaultPort ==>
      !Blank(PortSetting(env)) && ParseInt(Strip(PortSetting(env).value)) == Some(port)
  {
    var chosen := PortSetting(env);
    if Blank(chosen) then DefaultPort
    else
      match ParseInt(Strip(chosen.value))
      case Some(n) => n
      case None => DefaultPort
  }

  /** The SMTP server: SMTP_SERVER stripped, or smtp.qq.com when it is blank. */
  function SmtpServer(env: Environment): (server: string)
    ensures server == DefaultServer
      || ("SMTP_SERVER" in env && server == Strip(env["SMTP_SERVER"]) && server != "")
  {
    var v := Get(env, "SMTP_SERVER");
    if Blank(v) then DefaultServer else Strip(v.value)
  }

  /** The stripped pieces that are not empty, in order. */
  function NonEmptyStripped(pieces: seq<string>): (r: seq<string>)
    ensures |r| <= |pieces| && forall x :: x in r ==> x != ""
  {
    if |pieces| == 0 then []
    else
      var head := Strip(pieces[0]);
      (if head == "" then [] else [head]) + NonEmptyStripped(pieces[1..])
  }

  /** RECIPIENTS split on ';', each address stripped, empty ones dropped. */
  function Recipients(env: Environment): (r: seq<string>)
    ensures forall x :: x in r ==> x != ""
  {
    var raw := if "RECIPIENTS" in env then env["RECIPIENTS"] else "";
    NonEmptyStripped(Split(raw, ';'))
  }

  datatype Config = Config(server: string, port: int, user: string, password: string, recipients: seq<string>)

  /**
   * `EmailSender._load_config`: a usable server, 465 unless a port variable
   * holds an integer, clean recipients, and empty credentials when unset.
   */
  function LoadConfig(env: Environment): (c: Config)
    ensures c.server != "" && Trimmed(c.server)
    ensures Blank(Get(env, "SMTP_PORT")) && Blank(Get(env, "SMTP")) ==> c.port == DefaultPort
    ensures c.port != DefaultPort ==>
      !Blank(PortSetting(env)) && ParseInt(Strip(PortSetting(env).value)) == Some(c.port)
    ensures forall r :: r in c.recipients ==> r != "" && Trimmed(r) && ';' !in r
    ensures "RECIPIENTS" !in env ==> c.recipients == []
    ensures "SMTP_USER" !in env ==> c.user == ""
    ensures "SMTP_PASSWORD" !in env ==> c.password == ""
  {
    ServerSpec(env);
    RecipientsClean(env);
    var c := Config(
      SmtpServer(env),
      SmtpPort(env),
      if "SMTP_USER" in env then env["SMTP_USER"] else "",
      if "SMTP_PASSWORD" in env then env["SMTP_PASSWORD"] else "",
      Recipients(env));
    if "RECIPIENTS" !in env then RecipientsUnset(env); c else c
  }

  /** The headers of the report mail and the label counts shown in its body. */
  datatype Message = Message(subject: string, sender: string, to: string, buy: nat, sell: nat, hold: nat)

  /** How many of the labels are exactly `text` (a `value_counts()` entry, 0 when absent). */
  function Occurrences(labels: seq<string>, text: string): nat
  {
    if |labels| == 0 then 0
    else (if labels[0] == text then 1 else 0) + Occurrences(labels[1..], text)
  }

  /**
   * The message `send_email` would send for a report with the given
   * Bollinger label column, or None when it returns False before building
   * one: a missing user or password, or no recipients.
   */
  function ReportMessage(config: Config, reportDate: string, labels: seq<string>): (m: Option<Message>)
    ensures m.Some? <==> config.user != "" && config.password != "" && config.recipients != []
    ensures m.Some? ==> m.value.sender == config.user && m.value.to == Join(config.recipients, ',')
  {
    if config.user == "" || config.password == "" then None
    else if |config.recipients| == 0 then None
    else
      Some(Message(
        SubjectPrefix + reportDate,
        config.user,
        Join(config.recipients, ','),
        Occurrences(labels, Buy.Text()) + Occurrences(labels, OpportunisticBuy.Text()),
        Occurrences(labels, Sell.Text()) + Occurrences(labels, RiskAlert.Text()),
        Occurrences(labels, Hold.Text())))
  }

  // ----------------------------------------------------------------------
  // Port

  /** Both variables blank: the port is 465. */
  lemma PortDefault(env: Environment)
    requires Blank(Get(env, "SMTP_PORT")) && Blank(Get(env, "SMTP"))
    ensures SmtpPort(env) == DefaultPort
  {
  }

  /** SMTP_PORT holding the decimal text of n, padded with whitespace, gives n. */
  lemma PortFromSmtpPort(env: Environment, n: int)
    requires "SMTP_PORT" in env && Strip(env["SMTP_PORT"]) == IntToString(n)
    ensures SmtpPort(env) == n
  {
    ParseIntString(n);
  }

  /** A blank SMTP_PORT falls back to SMTP. */
  lemma PortFromSmtp(env: Environment, n: int)
    requires Blank(Get(env, "SMTP_PORT"))
    requires "SMTP" in env && Strip(env["SMTP"]) == IntToString(n)
    ensures SmtpPort(env) == n
  {
    ParseIntString(n);
  }

  /**
   * A chosen variable (SMTP_PORT, or SMTP when SMTP_PORT is blank) whose
   * stripped text is not an integer literal gives 465.
   */
  lemma PortFromInvalidText(env: Environment)
    requires !Blank(PortSetting(env)) && !IntegerText(Strip(PortSetting(env).value))
    ensures SmtpPort(env) == DefaultPort
  {
  }

  /** For instance, SMTP_PORT text with a stray character at k gives 465. */
  lemma PortFromStrayCharacter(env: Environment, k: nat)
    requires "SMTP_PORT" in env
    requires var t := Strip(env["SMTP_PORT"]);
      k < |t| && !IsDigit(t[k]) && t[k] != '_' && (k > 0 || (t[k] != '-' && t[k] != '+'))
    ensures SmtpPort(env) == DefaultPort
  {
    var t := Strip(env["SMTP_PORT"]);
    ParseIntRejects(t, k);
    assert t != "";
    PortFromInvalidText(env);
  }

  // ----------------------------------------------------------------------
  // Server

  /**
   * The server is never empty and never padded: smtp.qq.com when
   * SMTP_SERVER is blank, otherwise its stripped value.
   */
  lemma ServerSpec(env: Environment)
    ensures var s := SmtpServer(env);
      && s != "" && Trimmed(s)
      && (Blank(Get(env, "SMTP_SERVER")) ==> s == DefaultServer)
      && ("SMTP_SERVER" in env && !AllSpace(env["SMTP_SERVER"]) ==> s == Strip(env["SMTP_SERVER"]))
  {
    if "SMTP_SERVER" in env {
      var v := env["SMTP_SERVER"];
      var _, _ := StripSpec(v);
      StripEmpty(v);
    }
  }

  // ----------------------------------------------------------------------
  // Recipients

  /** Every recipient is a non-empty, unpadded address without ';'. */
  lemma {:induction false} NonEmptyStrippedSpec(pieces: seq<string>, sep: char)
    requires forall p :: p in pieces ==> sep !in p
    ensures forall r :: r in NonEmptyStripped(pieces) ==> r != "" && Trimmed(r) && sep !in r
  {
    if |pieces| > 0 {
      var x := pieces[0];
      var p, q := StripSpec(x);
      var h := Strip(x);
      StripKeepsOut(x, sep);
      assert forall y :: y in pieces[1..] ==> y in pieces;
      NonEmptyStrippedSpec(pieces[1..], sep);
    }
  }

  lemma RecipientsClean(env: Environment)
    ensures forall r :: r in Recipients(env) ==> r != "" && Trimmed(r) && ';' !in r
  {
    var raw := if "RECIPIENTS" in env then env["RECIPIENTS"] else "";
    SplitPiecesFree(raw, ';');
    NonEmptyStrippedSpec(Split(raw, ';'), ';');
  }

  /** Unset RECIPIENTS: no recipients. */
  lemma RecipientsUnset(env: Environment)
    requires "RECIPIENTS" !in env
    ensures Recipients(env) == []
  {
    assert Split("", ';') == [""];
    assert Strip("") == "";
    assert NonEmptyStripped([""]) == [] + NonEmptyStripped([""][1..]);
  }

  lemma {:induction false} NonEmptyStrippedClean(addrs: seq<string>)
    requires forall a :: a in addrs ==> a != "" && Trimmed(a)
    ensures NonEmptyStripped(addrs) == addrs
  {
    if |addrs| > 0 {
      StripTrimmed(addrs[0]);
      assert forall a :: a in addrs[1..] ==> a in addrs;
      NonEmptyStrippedClean(addrs[1..]);
      assert [addrs[0]] + addrs[1..] == addrs;
    }
  }

  /** A ';'-joined list of clean addresses reads back as that list, in order. */
  lemma RecipientsRoundTrip(env: Environment, addrs: seq<string>)
    requires |addrs| > 0
    requires forall a :: a in addrs ==> a != "" && Trimmed(a) && ';' !in a
    requires "RECIPIENTS" in env && env["RECIPIENTS"] == Join(addrs, ';')
    ensures Recipients(env) == addrs
  {
    SplitJoin(addrs, ';');
    NonEmptyStrippedClean(addrs);
  }

  // ----------------------------------------------------------------------
  // Guard, headers and tally

  /**
   * No message without a user, a password and at least one recipient;
   * otherwise the To header joins the recipients with ',', and reads back
   * as them, in order, when no address itself holds a ','.
   */
  lemma ReportMessageSpec(config: Config, reportDate: string, labels: seq<string>)
    ensures var m := ReportMessage(config, reportDate, labels);
      && (m.None? <==> config.user == "" || config.password == "" || config.recipients == [])
      && (m.Some? ==> m.value.sender == config.user && m.value.to == Join(config.recipients, ','))
      && (m.Some? && (forall r :: r in config.recipients ==> ',' !in r) ==> Split(m.value.to, ',') == config.recipients)
      && (m.Some? ==> m.value.subject[..|SubjectPrefix|] == SubjectPrefix && m.value.subject[|SubjectPrefix|..] == reportDate)
  {
    if config.recipients != [] && forall r :: r in config.recipients ==> ',' !in r {
      SplitJoin(config.recipients, ',');
    }
  }

  /** One of the five label texts. */
  predicate IsLabelText(x: string)
  {
    x == Hold.Text() || x == Buy.Text() || x == Sell.Text() || x == OpportunisticBuy.Text() || x == RiskAlert.Text()
  }

  /** The labels of a signal column, as the CSV holds them. */
  function Texts(ls: seq<Signal>): (r: seq<string>)
    ensures |r| == |ls| && forall k :: 0 <= k < |r| ==> IsLabelText(r[k])
  {
    seq(|ls|, k requires 0 <= k < |ls| => ls[k].Text())
  }

  /** Counting the occurrences of several distinct texts never exceeds the number of labels. */
  lemma {:induction false} TallyBound(labels: seq<string>)
    ensures var b, s, h := Buy.Text(), Sell.Text(), Hold.Text();
      var o, a := OpportunisticBuy.Text(), RiskAlert.Text();
      Occurrences(labels, b) + Occurrences(labels, o) + Occurrences(labels, s)
        + Occurrences(labels, a) + Occurrences(labels, h) <= |labels|
  {
    if |labels| > 0 {
      TallyBound(labels[1..]);
    }
  }

  /** Over a column of label texts the buy, sell and hold counts add up to its length. */
  lemma {:induction false} TallyComplete(labels: seq<string>)
    requires forall k :: 0 <= k < |labels| ==> IsLabelText(labels[k])
    ensures Occurrences(labels, Buy.Text()) + Occurrences(labels, OpportunisticBuy.Text())
      + Occurrences(labels, Sell.Text()) + Occurrences(labels, RiskAlert.Text())
      + Occurrences(labels, Hold.Text()) == |labels|
  {
    if |labels| > 0 {
      var rest := labels[1..];
      assert forall k :: 0 <= k < |rest| ==> rest[k] == labels[k + 1];
      TallyComplete(rest);
      assert IsLabelText(labels[0]);
    }
  }

  /** A report over label texts only counts every label exactly once. */
  lemma ReportCountsExact(config: Config, reportDate: string, labels: seq<string>)
    requires forall k :: 0 <= k < |labels| ==> IsLabelText(labels[k])
    ensures var m := ReportMessage(config, reportDate, labels);
      m.Some? ==> m.value.buy + m.value.sell + m.value.hold == |labels|
  {
    TallyComplete(labels);
  }

  /** The counts in a report message add up to at most the number of labels read. */
  lemma ReportCountsBound(config: Config, reportDate: string, labels: seq<string>)
    ensures var m := ReportMessage(config, reportDate, labels);
      m.Some? ==> m.value.buy + m.value.sell + m.value.hold <= |labels|
  {
    TallyBound(labels);
  }
}
