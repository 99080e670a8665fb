/** The OpenVPN templates the service caches by server and port
    (src/service/openvpnmanager.cpp). */
module VpnTemplates {
  import opened Common

  const PORT_1194: int := 1
  const PORT_53: int := 2
  const PORT_OTHER: int := 3

  /** Ports that share their templates. */
  function PortClass(port: int): (c: int)
    ensures 1 <= c <= 3
  {
    if port == 1194 then PORT_1194 else if port == 53 then PORT_53 else PORT_OTHER
  }

  function ServerKey(serverId: int, port: int): int {
    serverId * 10 + PortClass(port)
  }

  /** Division and remainder of C++: they round towards zero. */
  function Quotient(a: int, b: int): int
    requires b > 0
  {
    if a >= 0 then a / b else -((-a) / b)
  }

  function Remainder(a: int, b: int): int
    requires b > 0
  {
    a - Quotient(a, b) * b
  }

  lemma KeyIsInjective(id: int, port: int, id': int, port': int)
    ensures ServerKey(id, port) == ServerKey(id', port') <==> id == id' && PortClass(port) == PortClass(port')
  {
  }

  /** The reply handlers take a key apart again with / and %; that finds the server and the port class
      exactly for keys of servers that are not negative. */
  lemma KeyIsInverted(id: int, port: int)
    ensures Quotient(ServerKey(id, port), 10) == id && Remainder(ServerKey(id, port), 10) == PortClass(port)
       <==> id >= 0
  {
    var c := PortClass(port);
    if id >= 0 {
      assert (id * 10 + c) / 10 == id;
    } else {
      assert -ServerKey(id, port) == (-id - 1) * 10 + (10 - c);
      assert (-ServerKey(id, port)) / 10 == -id - 1;
    }
  }

  // ------------------------------------------------------------------ lines

  predicate DnsAt(s: string, i: nat) {
    i + 3 <= |s| && s[i] == 'D' && s[i + 1] == 'N' && s[i + 2] == 'S'
  }

  predicate MentionsDns(s: string) {
    exists i :: 0 <= i < |s| && DnsAt(s, i)
  }

  /** QString::split: the parts between the separators, at least one. */
  function Split(s: string): (parts: seq<string>)
    ensures parts != []
  {
    if s == [] then [""]
    else if s[0] == '\n' then [""] + Split(s[1..])
    else
      var rest := Split(s[1..]);
      [[s[0]] + rest[0]] + rest[1..]
  }

  lemma {:induction false} JoinAppend(lines: seq<string>, line: string)
    ensures Join(lines + [line], "\n") == Join(lines, "\n") + line + "\n"
  {
    if lines == [] {
      assert [line][1..] == [];
    } else {
      assert (lines + [line])[1..] == lines[1..] + [line];
      JoinAppend(lines[1..], line);
    }
  }

  lemma {:induction false} JoinSplit(s: string)
    ensures Join(Split(s), "\n") == s + "\n"
  {
    if s != [] {
      JoinSplit(s[1..]);
      var rest := Split(s[1..]);
      assert s == [s[0]] + s[1..];
      if s[0] == '\n' {
        assert ([""] + rest)[1..] == rest;
      } else {
        assert ([[s[0]] + rest[0]] + rest[1..])[1..] == rest[1..];
        assert s + "\n" == [s[0]] + (s[1..] + "\n");
        assert ([s[0]] + rest[0]) + "\n" + Join(rest[1..], "\n") == [s[0]] + (rest[0] + "\n" + Join(rest[1..], "\n"));
      }
    }
  }

  predicate AnyMentionsDns(lines: seq<string>) {
    exists k :: 0 <= k < |lines| && MentionsDns(lines[k])
  }

  lemma MentionsTail(s: string)
    requires s != []
    ensures MentionsDns(s) <==> DnsAt(s, 0) || MentionsDns(s[1..])
  {
    if MentionsDns(s) {
      var i :| 0 <= i < |s| && DnsAt(s, i);
      assert i > 0 ==> DnsAt(s[1..], i - 1);
    }
    if MentionsDns(s[1..]) {
      var i :| 0 <= i < |s[1..]| && DnsAt(s[1..], i);
      assert DnsAt(s, i + 1);
    }
  }

  /** The first line starts with the same three characters as the text, if it is long enough. */
  lemma {:induction false} SplitPrefix(s: string, w: string)
    requires '\n' !in w
    ensures w <= s <==> w <= Split(s)[0]
  {
    if w != [] && s != [] {
      SplitPrefix(s[1..], w[1..]);
      assert w <= s <==> w[0] == s[0] && w[1..] <= s[1..];
      if s[0] != '\n' {
        var l := Split(s)[0];
        assert l[1..] == Split(s[1..])[0];
        assert w <= l <==> w[0] == l[0] && w[1..] <= l[1..];
      }
    }
  }

  /** A line mentions DNS exactly if the text does. */
  lemma {:induction false} DnsInLines(s: string)
    ensures AnyMentionsDns(Split(s)) <==> MentionsDns(s)
  {
    if s == [] {
      assert !MentionsDns("");
    } else {
      var rest, lines := Split(s[1..]), Split(s);
      DnsInLines(s[1..]);
      MentionsTail(s);
      SplitPrefix(s, "DNS");
      assert "DNS" <= s <==> DnsAt(s, 0);
      if s[0] == '\n' {
        assert !MentionsDns(lines[0]);
        assert forall k :: 0 <= k < |rest| ==> lines[k + 1] == rest[k];
      } else {
        MentionsTail(lines[0]);
        assert lines[0][1..] == rest[0];
        assert "DNS" <= lines[0] <==> DnsAt(lines[0], 0);
        assert forall k :: 1 <= k < |rest| ==> lines[k] == rest[k];
      }
    }
  }

  /** The loop of writeConfigFile over the lines of a template. */
  method Filter(template: string) returns (filtered: string, hasDns: bool)
    ensures filtered == template + "\n" && hasDns == MentionsDns(template)
  {
    hide Split, Join, MentionsDns;
    var lines := Split(template);
    filtered, hasDns := "", false;
    JoinNone();
    for i := 0 to |lines|
      invariant filtered == Join(lines[..i], "\n") && hasDns == AnyMentionsDns(lines[..i])
    {
      var mentions := HasDns(lines[i]);
      if mentions {
        hasDns := true;
      }
      JoinAppend(lines[..i], lines[i]);
      assert lines[..i + 1] == lines[..i] + [lines[i]];
      filtered := filtered + lines[i] + "\n";
    }
    assert lines[..|lines|] == lines;
    JoinSplit(template);
    DnsInLines(template);
  }

  lemma JoinNone()
    ensures Join([], "\n") == ""
  {
  }

  /** QString::contains("DNS"). */
  method HasDns(s: string) returns (found: bool)
    ensures found == MentionsDns(s)
  {
    var i := 0;
    while i + 3 <= |s|
      invariant forall j :: 0 <= j < i ==> !DnsAt(s, j)
    {
      if DnsAt(s, i) {
        return true;
      }
      i := i + 1;
    }
    return false;
  }
}
