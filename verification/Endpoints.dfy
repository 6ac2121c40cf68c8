/** `tcp_endpoint::parse` and `to_string` (src/infra/network.cpp:99-185 and 263-277,
    src/infra/network.h:149-180). The regular expression is stated as the relation Matches;
    the split into host, port and repeats is shown to be a function of the input. */
module Endpoints {
  import opened Basics
  import opened Hosts

  /** `resolved_sockaddrs` is left to the operating system. */
  datatype Endpoint = Endpoint(host: string, port: Option<nat>, repeats: Option<nat>)

  const INT_MAX: nat := 0x7fff_ffff

  predicate EndpointHost(h: string) { HostName(h) || h == "*" || Bracketed(h) }

  predicate PortText(p: string) { p != "" && (p == "*" || Digits(p)) }

  predicate RepeatsText(r: string) { r != "" && r[0] != '0' && Digits(r) }

  /** The three capture groups; an absent one is the empty string. */
  datatype Groups = Groups(host: string, port: string, repeats: string)

  function Tail(sep: char, text: string): string { if text == "" then "" else [sep] + text }

  /** value matches `^(host)(?::(port))?(?:@(repeats))?$` with these groups. */
  predicate Matches(value: string, g: Groups) {
    && EndpointHost(g.host) && (g.port == "" || PortText(g.port)) && (g.repeats == "" || RepeatsText(g.repeats))
    && value == g.host + Tail(':', g.port) + Tail('@', g.repeats)
  }

  function SplitGroups(value: string): Groups {
    var at := IndexOf(value, '@');
    var front := value[..at];
    var host := TakeHost(front);
    Groups(host,
           if |host| < |front| then front[|host| + 1..] else "",
           if at < |value| then value[at + 1..] else "")
  }

  lemma HostIsToken(h: string)
    requires EndpointHost(h)
    ensures HostToken(h) && forall k :: 0 <= k < |h| ==> h[k] != '@'
  {
    if HostName(h) { HostNameChars(h); }
  }

  lemma CutAt(front: string, repeats: string)
    requires forall k :: 0 <= k < |front| ==> front[k] != '@'
    ensures var value := front + Tail('@', repeats);
            && IndexOf(value, '@') == |front| && value[..|front|] == front
            && repeats == if |front| < |value| then value[|front| + 1..] else ""
  {
    var value := front + Tail('@', repeats);
    forall k | 0 <= k < |front| ensures value[k] != '@' { assert value[k] == front[k]; }
    if repeats != "" { assert value[|front|] == '@'; }
  }

  lemma CutColon(host: string, port: string)
    requires HostToken(host)
    ensures var front := host + Tail(':', port);
            TakeHost(front) == host && port == if |host| < |front| then front[|host| + 1..] else ""
  {
    TakeHostFinds(host, Tail(':', port));
  }

  lemma NoAtInFront(host: string, port: string)
    requires EndpointHost(host) && (port == "" || PortText(port))
    ensures forall k :: 0 <= k < |host + Tail(':', port)| ==> (host + Tail(':', port))[k] != '@'
  {
    HostIsToken(host);
    var front := host + Tail(':', port);
    forall k | 0 <= k < |front| ensures front[k] != '@' {
      if k > |host| { assert front[k] == port[k - |host| - 1]; }
    }
  }

  /** There is at most one way to match, and SplitGroups finds it. */
  lemma MatchIsUnique(value: string, g: Groups)
    requires Matches(value, g)
    ensures g == SplitGroups(value)
  {
    HostIsToken(g.host);
    NoAtInFront(g.host, g.port);
    var front := g.host + Tail(':', g.port);
    CutAt(front, g.repeats);
    CutColon(g.host, g.port);
    assert value[..IndexOf(value, '@')] == front;
  }

  /** std::stoi on a string of digits: None when it throws out_of_range. */
  function Stoi(s: string): Option<nat>
    requires Digits(s)
  {
    if Value(s) <= INT_MAX then Some(Value(s)) else None
  }

  /** What parse makes of the groups. */
  function Interpret(g: Groups): Option<Endpoint>
    requires (g.port == "" || PortText(g.port)) && (g.repeats == "" || RepeatsText(g.repeats))
  {
    if g.port != "" && g.port != "*" && (Stoi(g.port) == None || Stoi(g.port).value >= 65536) then None
    else if g.repeats != "" && (Stoi(g.repeats) == None || Stoi(g.repeats).value == 0) then None
    else
      Some(Endpoint(g.host,
                    if g.port == "" then None else if g.port == "*" then Some(0) else Stoi(g.port),
                    if g.repeats == "" then None else Stoi(g.repeats)))
  }

  function Parsed(value: string): Option<Endpoint> {
    var g := SplitGroups(value);
    if Matches(value, g) then Interpret(g) else None
  }

  function PrintNumber(sep: char, n: Option<nat>): string {
    match n case None => "" case Some(v) => [sep] + Decimal(v)
  }

  function Printed(ep: Endpoint): string {
    ep.host + PrintNumber(':', ep.port) + PrintNumber('@', ep.repeats)
  }

  /** The endpoints parse can produce. */
  predicate Valid(ep: Endpoint) {
    && EndpointHost(ep.host)
    && (ep.port.Some? ==> ep.port.value < 65536)
    && (ep.repeats.Some? ==> 0 < ep.repeats.value <= INT_MAX)
  }

  /** A string of digits that does not start with 0 is positive. */
  lemma {:induction false} LeadingDigit(s: string)
    requires RepeatsText(s)
    ensures Value(s) > 0
    decreases |s|
  {
    if |s| > 1 {
      LeadingDigit(s[..|s| - 1]);
    } else {
      assert s[..0] == "";
    }
  }

  /** A matching string is refused exactly for a port of 65536 or more, or more repeats than
      an int holds. */
  lemma ParseRefuses(value: string, g: Groups)
    requires Matches(value, g)
    ensures Parsed(value) == None <==> (Digits(g.port) && Value(g.port) >= 65536) || Value(g.repeats) > INT_MAX
  {
    MatchIsUnique(value, g);
    InterpretFails(g);
  }

  lemma InterpretFails(g: Groups)
    requires (g.port == "" || PortText(g.port)) && (g.repeats == "" || RepeatsText(g.repeats))
    ensures Interpret(g) == None <==> (Digits(g.port) && Value(g.port) >= 65536) || Value(g.repeats) > INT_MAX
  {
    if g.repeats != "" { LeadingDigit(g.repeats); }
    if g.port == "*" { assert !IsDigit(g.port[0]); }
  }

  /** Everything parse accepts is valid, and names the host that was matched. */
  lemma ParseSound(value: string)
    requires Parsed(value).Some?
    ensures Valid(Parsed(value).value) && Matches(value, SplitGroups(value))
    ensures Parsed(value).value.host == SplitGroups(value).host
  {
    var g := SplitGroups(value);
    if g.repeats != "" { LeadingDigit(g.repeats); }
  }

  /** What each part of a matched string means: an absent port or count stays open, `*` is port 0,
      digits are their value. */
  lemma ParseMeans(value: string, g: Groups)
    requires Matches(value, g) && Parsed(value).Some?
    ensures var ep := Parsed(value).value;
            && ep.host == g.host
            && (g.port == "" ==> ep.port == None) && (g.port == "*" ==> ep.port == Some(0))
            && (g.port != "" && Digits(g.port) ==> ep.port == Some(Value(g.port)))
            && (g.repeats == "" ==> ep.repeats == None) && (g.repeats != "" ==> ep.repeats == Some(Value(g.repeats)))
  {
    MatchIsUnique(value, g);
    if g.port == "*" { assert !IsDigit(g.port[0]); }
  }

  /** `host:*` asks for port 0, for any host and any number of repeats. */
  lemma StarIsZero(host: string, repeats: string)
    requires EndpointHost(host) && (repeats == "" || (RepeatsText(repeats) && Value(repeats) <= INT_MAX))
    ensures var value := host + ":*" + Tail('@', repeats);
            && Parsed(value).Some? && Parsed(value).value.host == host && Parsed(value).value.port == Some(0)
  {
    var g, value := Groups(host, "*", repeats), host + ":*" + Tail('@', repeats);
    assert ":*" == Tail(':', "*") && Matches(value, g);
    assert !Digits("*") by { assert !IsDigit("*"[0]); }
    assert Value("") == 0;
    ParseRefuses(value, g);
    ParseMeans(value, g);
  }

  function NumberText(n: Option<nat>): string {
    if n.Some? then Decimal(n.value) else ""
  }

  /** The groups of a printed endpoint. */
  function GroupsOf(ep: Endpoint): Groups { Groups(ep.host, NumberText(ep.port), NumberText(ep.repeats)) }

  lemma PrintedMatches(ep: Endpoint)
    requires Valid(ep)
    ensures Matches(Printed(ep), GroupsOf(ep))
  {
    assert Printed(ep) == ep.host + Tail(':', NumberText(ep.port)) + Tail('@', NumberText(ep.repeats));
  }

  lemma NumbersSurvive(ep: Endpoint)
    requires Valid(ep) && Matches(Printed(ep), GroupsOf(ep))
    ensures Interpret(GroupsOf(ep)) == Some(ep)
  {
    if ep.port.Some? {
      ValueOfDecimal(ep.port.value);
      assert IsDigit(Decimal(ep.port.value)[0]);
    }
    if ep.repeats.Some? { ValueOfDecimal(ep.repeats.value); }
  }

  /** Printing a valid endpoint and parsing it gives it back. */
  lemma PrintParse(ep: Endpoint)
    requires Valid(ep)
    ensures Parsed(Printed(ep)) == Some(ep)
  {
    PrintedMatches(ep);
    MatchIsUnique(Printed(ep), GroupsOf(ep));
    NumbersSurvive(ep);
  }

  /** Hence every accepted string denotes the same endpoint as its printed form. */
  lemma ParsePrintParse(value: string)
    requires Parsed(value).Some?
    ensures Parsed(Printed(Parsed(value).value)) == Parsed(value)
  {
    ParseSound(value);
    PrintParse(Parsed(value).value);
  }

  class TcpEndpoint {
    var host: string
    var port: Option<nat>
    var repeats: Option<nat>

    constructor ()
      ensures Contents() == Endpoint("", None, None)
    {
      host, port, repeats := "", None, None;
    }

    function Contents(): Endpoint
      reads this
    {
      Endpoint(host, port, repeats)
    }

    /** Nothing changes when the string does not match; a number out of range is noticed only
        after the fields before it were assigned. */
    method Parse(value: string) returns (ok: bool)
      modifies this
      ensures ok <==> Parsed(value).Some?
      ensures ok ==> Contents() == Parsed(value).value
      ensures !Matches(value, SplitGroups(value)) ==> Contents() == old(Contents())
      ensures Matches(value, SplitGroups(value)) ==> host == SplitGroups(value).host
    {
      var g := SplitGroups(value);
      if !Matches(value, g) {
        return false;
      }
      host := g.host;
      if g.port == "" {
        port := None;
      } else if g.port == "*" {
        port := Some(0);
      } else {
        var n := Stoi(g.port);
        if n == None || n.value >= 65536 {
          return false;
        }
        port := n;
      }
      if g.repeats == "" {
        repeats := None;
      } else {
        var n := Stoi(g.repeats);
        if n == None || n.value == 0 {
          return false;
        }
        repeats := n;
      }
      return true;
    }

    method ToString() returns (result: string)
      ensures result == Printed(Contents())
    {
      result := host;
      if port.Some? {
        result := result + [':'];
        result := result + Decimal(port.value);
      }
      assert result == host + PrintNumber(':', port);
      if repeats.Some? {
        result := result + ['@'];
        result := result + Decimal(repeats.value);
      }
    }
  }
}
