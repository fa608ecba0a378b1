/**
 * Quoting of console commands sent to FXServer (`escape` and
 * `formatCommand`). A parameter is wrapped in ASCII double quotes, so any
 * double quote inside it is first replaced by the fullwidth quotation mark
 * U+FF02; the server's quoted-argument reader then sees each parameter as
 * exactly one argument. Only double quotes are replaced: a line break in a
 * parameter stays, and ends the console line it is sent on.
 */
module Commands {
  import opened Wrappers
  import opened Text

  const Quote: char := '"'
  const FullwidthQuote: char := '\U{FF02}'

  /** `x.replace(/"/g, '＂')`. U+FF02 is one UTF-16 unit, so lengths agree. */
  function Escape(x: string): (r: string)
    ensures |r| == |x|
    ensures forall i :: 0 <= i < |x| ==> r[i] == (if x[i] == Quote then FullwidthQuote else x[i])
    ensures Quote !in r
    ensures Quote !in x ==> r == x
  {
    if x == [] then []
    else [if x[0] == Quote then FullwidthQuote else x[0]] + Escape(x[1..])
  }

  function EscapeAll(ps: seq<string>): (r: seq<string>)
    ensures |r| == |ps|
    ensures forall i :: 0 <= i < |ps| ==> r[i] == Escape(ps[i])
  {
    seq(|ps|, i requires 0 <= i < |ps| => Escape(ps[i]))
  }

  /** `formatCommand(cmd, ...ps)`: `cmd "p1" "p2" ...`, each parameter escaped. */
  function FormatCommand(cmd: string, ps: seq<string>): (r: string)
    ensures |r| > |cmd| && r[..|cmd|] == cmd
    ensures ps == [] ==> r == cmd + " \"\""
  {
    cmd + " \"" + Join(EscapeAll(ps), "\" \"") + "\""
  }

  /** Index of the first double quote of `t` at or after `k`, or `|t|` when there is none. */
  function QuoteIndex(t: string, k: nat): (r: nat)
    requires k <= |t|
    ensures k <= r <= |t|
    ensures forall i :: k <= i < r ==> t[i] != Quote
    ensures r < |t| ==> t[r] == Quote
    decreases |t| - k
  {
    if k == |t| || t[k] == Quote then k else QuoteIndex(t, k + 1)
  }

  /**
   * Reads the argument list of a formatted command back: one or more
   * quoted fields separated by single spaces, each field free of
   * double quotes. This is the reading the escaping protects within one
   * console line; a line break is an ordinary character to it.
   */
  function ParseParams(t: string): (r: Option<seq<string>>)
    ensures r.Some? ==> |r.value| >= 1
    decreases |t|
  {
    if |t| < 2 || t[0] != Quote then None
    else
      var j := QuoteIndex(t, 1);
      if j == |t| then None
      else if j + 1 == |t| then Some([t[1..j]])
      else if t[j + 1] != ' ' then None
      else
        match ParseParams(t[j + 2..])
        case Some(rest) => Some([t[1..j]] + rest)
        case None => None
  }

  lemma {:induction false} QuoteIndexAfterField(t: string, k: nat, e: string)
    requires k + |e| < |t| && t[k..k + |e|] == e && Quote !in e && t[k + |e|] == Quote
    ensures QuoteIndex(t, k) == k + |e|
    decreases |e|
  {
    if e != [] {
      assert t[k] == e[0];
      assert t[k + 1..k + 1 + |e[1..]|] == e[1..];
      QuoteIndexAfterField(t, k + 1, e[1..]);
    }
  }

  /** A quote-free field closed by the final quote is the last field. */
  lemma ParseLastField(t: string, e: string)
    requires t == [Quote] + e + [Quote] && Quote !in e
    ensures ParseParams(t) == Some([e])
  {
    assert t[1..1 + |e|] == e;
    QuoteIndexAfterField(t, 1, e);
  }

  /** A quote-free field followed by `" ` is read, and the reading goes on after the space. */
  lemma ParseFieldThenMore(t: string, e: string, tail: string)
    requires t == [Quote] + e + [Quote, ' '] + tail && Quote !in e
    ensures ParseParams(t) == match ParseParams(tail) case Some(rest) => Some([e] + rest) case None => None
  {
    assert t[1..1 + |e|] == e;
    QuoteIndexAfterField(t, 1, e);
    assert t[1 + |e| + 2..] == tail;
  }

  /** Fields joined by `" "` and wrapped in quotes parse back into the same fields. */
  lemma {:induction false} ParseJoined(es: seq<string>)
    requires |es| >= 1
    requires forall i :: 0 <= i < |es| ==> Quote !in es[i]
    ensures ParseParams([Quote] + Join(es, "\" \"") + [Quote]) == Some(es)
  {
    var t := [Quote] + Join(es, "\" \"") + [Quote];
    var e := es[0];
    if |es| == 1 {
      ParseLastField(t, e);
      assert es == [e];
    } else {
      var j := Join(es[1..], "\" \"");
      var tail := [Quote] + j + [Quote];
      assert Join(es, "\" \"") == e + "\" \"" + j;
      calc {
        t;
        [Quote] + (e + "\" \"" + j) + [Quote];
        [Quote] + e + [Quote, ' '] + ([Quote] + j + [Quote]);
      }
      ParseFieldThenMore(t, e, tail);
      assert forall i :: 0 <= i < |es[1..]| ==> es[1..][i] == es[i + 1];
      ParseJoined(es[1..]);
      assert [e] + es[1..] == es;
    }
  }

  /**
   * Within one console line no parameter can break out of its quotes:
   * after the command name and a space, the formatted text parses back
   * into exactly one field per parameter, the escaped parameter itself.
   * (Line breaks are ordinary characters to this reading; see
   * `Supervisor.CommandLineSingleLine` for the line the text is sent on.)
   */
  lemma FormatCommandRoundTrip(cmd: string, ps: seq<string>)
    requires |ps| >= 1
    ensures var r := FormatCommand(cmd, ps);
            |r| > |cmd| && r[..|cmd| + 1] == cmd + " " && ParseParams(r[|cmd| + 1..]) == Some(EscapeAll(ps))
  {
    var es := EscapeAll(ps);
    var r := FormatCommand(cmd, ps);
    assert r == cmd + " " + ([Quote] + Join(es, "\" \"") + [Quote]);
    assert r[|cmd| + 1..] == [Quote] + Join(es, "\" \"") + [Quote];
    ParseJoined(es);
  }

  /** A parameter without double quotes arrives verbatim. */
  lemma FormatCommandVerbatim(cmd: string, ps: seq<string>, i: nat)
    requires i < |ps| && Quote !in ps[i]
    ensures var parsed := ParseParams(FormatCommand(cmd, ps)[|cmd| + 1..]);
            parsed.Some? && |parsed.value| == |ps| && parsed.value[i] == ps[i]
  {
    FormatCommandRoundTrip(cmd, ps);
  }

  /**
   * A character other than the quotes and the space that is in neither
   * the command nor any parameter is not in the formatted command.
   */
  lemma FormatCommandAvoids(cmd: string, ps: seq<string>, c: char)
    requires c != Quote && c != FullwidthQuote && c != ' '
    requires c !in cmd && forall i :: 0 <= i < |ps| ==> c !in ps[i]
    ensures c !in FormatCommand(cmd, ps)
  {
    var es := EscapeAll(ps);
    forall i | 0 <= i < |es|
      ensures c !in es[i]
    {
      assert c !in ps[i];
    }
    JoinAvoids(es, "\" \"", c);
    assert FormatCommand(cmd, ps) == cmd + " \"" + Join(es, "\" \"") + "\"";
  }
}
