/** `host_path::parse` on Linux (src/program_options.cpp:8-106): `[user@]host:path` or a
    local path. */
module HostPaths {
  import opened Basics
  import opened Hosts

  datatype HostPath = HostPath(user: Option<string>, host: Option<string>, path: string)

  predicate RemoteHost(h: string) { HostName(h) || Bracketed(h) }

  /** A `.` of the regular expression. */
  predicate Dot(c: char) { c != '\n' && c != '\r' }

  predicate Dots(s: string) { forall k :: 0 <= k < |s| ==> Dot(s[k]) }

  predicate UserText(u: string) { u != "" && forall k :: 0 <= k < |u| ==> u[k] != '@' && u[k] != ':' }

  /** The optional prefix and what follows it; an absent user is the empty string. */
  datatype Remote = Remote(user: string, host: string, rest: string)

  function UserPart(u: string): string { if u == "" then "" else u + "@" }

  predicate IsRemote(value: string, r: Remote) {
    && (r.user == "" || UserText(r.user)) && RemoteHost(r.host)
    && value == UserPart(r.user) + r.host + ":" + r.rest
  }

  function SplitRemote(value: string): Remote {
    var at, colon := IndexOf(value, '@'), IndexOf(value, ':');
    var user := if at < colon then value[..at] else "";
    var tail := if at < colon then value[at + 1..] else value;
    var host := TakeHost(tail);
    Remote(user, host, if |host| < |tail| then tail[|host| + 1..] else "")
  }

  lemma HostIsToken(h: string)
    requires RemoteHost(h)
    ensures HostToken(h) && h[0] != ':' && forall k :: 0 <= k < |h| ==> h[k] != '@'
  {
    if HostName(h) { HostNameChars(h); }
  }

  /** A string has at most one remote prefix, and SplitRemote finds it. */
  lemma RemoteIsUnique(value: string, r: Remote)
    requires IsRemote(value, r)
    ensures r == SplitRemote(value)
  {
    HostIsToken(r.host);
    var tail := r.host + (":" + r.rest);
    assert value == UserPart(r.user) + tail;
    TakeHostFinds(r.host, ":" + r.rest);
    assert tail[|r.host| + 1..] == r.rest;
    if r.user == "" {
      assert value == tail;
      NoUser(r.host, r.rest);
    } else {
      WithUser(r.user, tail);
    }
  }

  lemma NoUser(h: string, rest: string)
    requires RemoteHost(h)
    ensures IndexOf(h + (":" + rest), '@') >= IndexOf(h + (":" + rest), ':')
  {
    HostIsToken(h);
    var s := h + (":" + rest);
    assert s[|h|] == ':';
    forall k | 0 <= k < |h| ensures s[k] != '@' { assert s[k] == h[k]; }
  }

  lemma WithUser(u: string, tail: string)
    requires UserText(u)
    ensures var s := u + "@" + tail;
            IndexOf(s, '@') == |u| < IndexOf(s, ':') && s[..|u|] == u && s[|u| + 1..] == tail
  {
    var s := u + "@" + tail;
    assert s[|u|] == '@';
    forall k | 0 <= k < |u| ensures s[k] == u[k] { }
  }

  /** What parse returns. The alternatives of the regular expression leave no choice: with a
      remote prefix the rest must be dots, without one the whole string must be. */
  function Parsed(value: string): Option<HostPath> {
    var r := SplitRemote(value);
    if value == "" then None
    else if IsRemote(value, r) then
      if Dots(r.rest) then
        Some(HostPath(if r.user == "" then None else Some(r.user), Some(r.host), if r.rest == "" then "~" else r.rest))
      else None
    else if Dots(value) then Some(HostPath(None, None, value))
    else None
  }

  /** `user@host:path`, with the given text for the path. */
  function Rejoin(hp: HostPath, path: string): string {
    match hp.host
    case None => path
    case Some(h) => (match hp.user case None => "" case Some(u) => u + "@") + h + ":" + path
  }

  /** Nothing is lost: the parts re-concatenate to the input, except that an empty remote path
      reads "~". */
  lemma ParseLosesNothing(value: string)
    requires Parsed(value).Some?
    ensures var hp := Parsed(value).value;
            value == Rejoin(hp, hp.path) || (hp.host.Some? && hp.path == "~" && value == Rejoin(hp, ""))
  {
    var r := SplitRemote(value);
    if IsRemote(value, r) { RejoinRemote(r); }
  }

  lemma RejoinRemote(r: Remote)
    ensures var hp := HostPath(if r.user == "" then None else Some(r.user), Some(r.host), r.rest);
            Rejoin(hp, r.rest) == UserPart(r.user) + r.host + ":" + r.rest
  { }

  /** The parts a caller can write. */
  predicate Valid(hp: HostPath) {
    && (hp.user.Some? ==> hp.host.Some? && UserText(hp.user.value))
    && (hp.host.Some? ==> RemoteHost(hp.host.value))
    && Dots(hp.path) && hp.path != ""
  }

  /** What was written is what is parsed: always with a host, and for a local path exactly
      when it does not look like a remote one. */
  lemma RejoinParses(hp: HostPath)
    requires Valid(hp)
    ensures Parsed(Rejoin(hp, hp.path)) == Some(hp)
            <==> hp.host.Some? || !IsRemote(hp.path, SplitRemote(hp.path))
  {
    if hp.host.Some? {
      var r := Remote(if hp.user.Some? then hp.user.value else "", hp.host.value, hp.path);
      var s := Rejoin(hp, hp.path);
      assert IsRemote(s, r) by { assert s == UserPart(r.user) + r.host + ":" + r.rest; }
      RemoteIsUnique(s, r);
    }
  }

  /** A remote prefix with nothing behind it, which stands for the home directory. */
  predicate NamesHome(v: string) { IsRemote(v, SplitRemote(v)) && SplitRemote(v).rest == "" }

  lemma HomeText(v: string)
    requires NamesHome(v)
    ensures Parsed(v).Some? && Parsed(v + "~") == Parsed(v)
    ensures v == Rejoin(Parsed(v).value, "") && v + "~" == Rejoin(Parsed(v).value, "~")
  {
    var r := SplitRemote(v);
    AddsHome(v, r);
    RemoteIsUnique(v + "~", r.(rest := "~"));
    ParsedRemote(v, r);
    ParsedRemote(v + "~", r.(rest := "~"));
  }

  lemma AddsHome(v: string, r: Remote)
    requires IsRemote(v, r) && r.rest == ""
    ensures IsRemote(v + "~", r.(rest := "~")) && v + "~" != ""
  {
    var front := UserPart(r.user) + r.host + ":";
    assert v == front && v + "~" == front + "~";
  }

  lemma ParsedRemote(v: string, r: Remote)
    requires IsRemote(v, r) && r == SplitRemote(v) && (r.rest == "" || r.rest == "~")
    ensures var hp := HostPath(if r.user == "" then None else Some(r.user), Some(r.host), "~");
            Parsed(v) == Some(hp) && v == Rejoin(hp, r.rest)
  {
    assert v != "" by { assert v[|UserPart(r.user) + r.host|] == ':'; }
  }

  /** Parsing gives two strings the same parts if and only if they are equal, or one is a remote
      prefix with an empty path and the other the same with `~`. */
  lemma ParseIsInjective(v: string, w: string)
    requires Parsed(v).Some?
    ensures Parsed(v) == Parsed(w) <==> v == w || (NamesHome(v) && w == v + "~") || (NamesHome(w) && v == w + "~")
  {
    if NamesHome(v) { HomeText(v); }
    if NamesHome(w) { HomeText(w); }
    if Parsed(v) == Parsed(w) {
      if !NamesHome(v) { RejoinsItself(v); }
      if !NamesHome(w) { RejoinsItself(w); }
    }
  }

  lemma RejoinsItself(v: string)
    requires Parsed(v).Some? && !NamesHome(v)
    ensures v == Rejoin(Parsed(v).value, Parsed(v).value.path)
  { }

  /** The host `h` with an empty path, and with the home directory written out. */
  lemma HomeTwice()
    ensures Parsed("h:").Some? && Parsed("h:") == Parsed("h:~")
  {
    var r := Remote("", "h", "");
    assert HostName("h");
    assert IsRemote("h:", r) by { assert "h:" == UserPart("") + "h" + ":" + ""; }
    RemoteIsUnique("h:", r);
    HomeText("h:");
    assert "h:" + "~" == "h:~";
  }

  /** A string is refused exactly when it is empty or has a line break outside a user name. */
  lemma ParseRefuses(value: string)
    ensures Parsed(value) == None <==>
              value == "" || (if exists r :: IsRemote(value, r) then exists r :: IsRemote(value, r) && !Dots(r.rest)
                              else !Dots(value))
  {
    var r0 := SplitRemote(value);
    forall r | IsRemote(value, r) ensures r == r0 { RemoteIsUnique(value, r); }
  }

  class HostPathOption {
    var user: Option<string>
    var host: Option<string>
    var path: string

    constructor ()
      ensures Contents() == HostPath(None, None, "")
    {
      user, host, path := None, None, "";
    }

    function Contents(): HostPath
      reads this
    {
      HostPath(user, host, path)
    }

    /** The fields are assigned only when the whole string is accepted: the one test after the
        first assignment, an empty path without a host, cannot fail. */
    method Parse(value: string) returns (ok: bool)
      modifies this
      ensures ok <==> Parsed(value).Some?
      ensures Contents() == if ok then Parsed(value).value else old(Contents())
    {
      if value == "" {
        return false;
      }
      var r := SplitRemote(value);
      var groups: Remote;
      if IsRemote(value, r) {
        groups := r;
      } else {
        groups := Remote("", "", value);
      }
      if !Dots(groups.rest) {
        return false;
      }
      user := if groups.user == "" then None else Some(groups.user);
      host := if groups.host == "" then None else Some(groups.host);
      path := groups.rest;
      if path == "" {
        if host == None {
          return false;
        }
        path := "~";
      }
      return true;
    }
  }
}
