/** NetworkingService.ContainsNetstatPort: does the text netstat printed show
    a line that is listening on the port? */
module NetworkingService {
  import opened Wrappers
  import opened Text

  /** Regex.IsMatch(line, "[.:]" + port): '.' or ':' immediately followed by
      the port's decimal text, anywhere in the line. */
  predicate MacPortMatch(line: string, port: int) {
    Contains(line, "." + IntToString(port)) || Contains(line, ":" + IntToString(port))
  }

  /** line.Contains(":" + port, InvariantCultureIgnoreCase). */
  predicate PortMatch(line: string, port: int) {
    ContainsIgnoreCase(line, ":" + IntToString(port))
  }

  /** The lambda handed to Any: the line mentions LISTEN (ignoring case) and
      matches the platform's port pattern. */
  predicate ListeningLine(line: string, port: int, isMac: bool) {
    ContainsIgnoreCase(line, "LISTEN") && (if isMac then MacPortMatch(line, port) else PortMatch(line, port))
  }

  /** Some line of the list is listening on the port. */
  predicate HasListeningLine(lines: seq<string>, port: int, isMac: bool) {
    exists k :: 0 <= k < |lines| && ListeningLine(lines[k], port, isMac)
  }

  /** Any over the lines, first to last. */
  function AnyListening(lines: seq<string>, port: int, isMac: bool): (r: bool)
    ensures r == HasListeningLine(lines, port, isMac)
  {
    if |lines| == 0 then false
    else if ListeningLine(lines[0], port, isMac) then true
    else
      var r := AnyListening(lines[1..], port, isMac);
      assert forall k :: 1 <= k < |lines| ==> lines[k] == lines[1..][k - 1];
      r
  }

  /** ContainsNetstatPort(netstatResponse, port): the text is split on the
      runtime's NewLine and each piece is examined on its own. */
  function ContainsNetstatPort(netstatResponse: string, port: int, newLine: string, isMac: bool): (r: bool)
    ensures r == HasListeningLine(Split(netstatResponse, newLine), port, isMac)
  {
    AnyListening(Split(netstatResponse, newLine), port, isMac)
  }

  /** Without a line mentioning LISTEN the answer is false on every platform. */
  lemma NoListenLineNoPort(netstatResponse: string, port: int, newLine: string, isMac: bool)
    requires forall k :: 0 <= k < |Split(netstatResponse, newLine)|
                         ==> !ContainsIgnoreCase(Split(netstatResponse, newLine)[k], "LISTEN")
    ensures !ContainsNetstatPort(netstatResponse, port, newLine, isMac)
  {
  }

  /** The characters of n.ToString() are digits and '-': no letters. */
  lemma IntToStringNoLetters(n: int)
    ensures forall i :: 0 <= i < |IntToString(n)| ==> IsDigit(IntToString(n)[i]) || IntToString(n)[i] == '-'
  {
    var s := IntToString(n);
    if n < 0 {
      forall i | 1 <= i < |s| ensures IsDigit(s[i]) {
        assert s[i] == s[1..][i - 1];
      }
    }
  }

  /** A case-insensitive occurrence of ":" + port is an exact one, since that
      text has no letters. */
  lemma PortMatchIsExact(line: string, port: int)
    requires PortMatch(line, port)
    ensures Contains(line, ":" + IntToString(port))
  {
    var t := ":" + IntToString(port);
    var j :| 0 <= j <= |line| - |t| && OccursAtIgnoreCase(line, t, j);
    IntToStringNoLetters(port);
    forall i | 0 <= i < |t| ensures !('a' <= t[i] <= 'z') && !('A' <= t[i] <= 'Z') {
      if i > 0 {
        assert t[i] == IntToString(port)[i - 1];
      }
    }
    FoldedEqualsLiteral(line[j..j + |t|], t);
    assert OccursAt(line, t, j);
  }

  /** Every line the non-Mac test accepts the Mac pattern accepts too. */
  lemma NonMacMatchIsMacMatch(netstatResponse: string, port: int, newLine: string)
    requires ContainsNetstatPort(netstatResponse, port, newLine, false)
    ensures ContainsNetstatPort(netstatResponse, port, newLine, true)
  {
    var lines := Split(netstatResponse, newLine);
    var k :| 0 <= k < |lines| && ListeningLine(lines[k], port, false);
    PortMatchIsExact(lines[k], port);
    assert ListeningLine(lines[k], port, true);
  }

  /** An occurrence of a text is an occurrence of each of its prefixes. */
  lemma OccursAtPrefix(s: string, t: string, u: string, j: int)
    requires OccursAt(s, t + u, j)
    ensures OccursAt(s, t, j)
  {
    assert s[j..j + |t|] == (t + u)[..|t|];
  }

  /** The same, ignoring case. */
  lemma OccursAtIgnoreCasePrefix(s: string, t: string, u: string, j: int)
    requires OccursAtIgnoreCase(s, t, j) && |u| <= |t| && t[..|u|] == u
    ensures OccursAtIgnoreCase(s, u, j)
  {
    var w := s[j..j + |t|];
    assert FoldAll(w) == FoldAll(t);
    assert s[j..j + |u|] == w[..|u|];
    forall i | 0 <= i < |u| ensures FoldAll(s[j..j + |u|])[i] == FoldAll(u)[i] {
      assert FoldAll(w)[i] == FoldAll(t)[i];
    }
  }

  /** Matching is unanchored: a line listening on a port whose decimal text
      starts with another port's text counts as listening on that one too. */
  lemma UnanchoredPortMatch(line: string, port: int, longer: int, isMac: bool)
    requires |IntToString(port)| <= |IntToString(longer)|
    requires IntToString(longer)[..|IntToString(port)|] == IntToString(port)
    requires ListeningLine(line, longer, isMac)
    ensures ListeningLine(line, port, isMac)
  {
    var p := IntToString(port);
    var q := IntToString(longer);
    var tail := q[|p|..];
    assert q == p + tail;
    if isMac {
      if Contains(line, "." + q) {
        var j :| 0 <= j <= |line| - |"." + q| && OccursAt(line, "." + q, j);
        assert "." + q == ("." + p) + tail;
        OccursAtPrefix(line, "." + p, tail, j);
        assert OccursAt(line, "." + p, j);
      } else {
        var j :| 0 <= j <= |line| - |":" + q| && OccursAt(line, ":" + q, j);
        assert ":" + q == (":" + p) + tail;
        OccursAtPrefix(line, ":" + p, tail, j);
        assert OccursAt(line, ":" + p, j);
      }
    } else {
      var j :| 0 <= j <= |line| - |":" + q| && OccursAtIgnoreCase(line, ":" + q, j);
      assert (":" + q)[..|":" + p|] == ":" + p;
      OccursAtIgnoreCasePrefix(line, ":" + q, ":" + p, j);
    }
  }

  /** For instance a line listening on 8080 answers true for port 80. */
  lemma Port8080MatchesPort80(line: string, isMac: bool)
    requires ListeningLine(line, 8080, isMac)
    ensures ListeningLine(line, 80, isMac)
  {
    assert IntToString(80) == "80";
    assert IntToString(8080) == "8080";
    UnanchoredPortMatch(line, 80, 8080, isMac);
  }

  /** A one-character text occurs exactly where that character stands. */
  lemma OccursAtChar(s: string, c: char, j: int)
    ensures OccursAt(s, [c], j) <==> 0 <= j < |s| && s[j] == c
  {
    if 0 <= j < |s| {
      assert s[j..j + 1] == [s[j]];
    }
  }

  /** A text with no occurrence of a one-character separator is one piece. */
  lemma SplitWithoutSeparator(s: string, c: char)
    requires forall i :: 0 <= i < |s| ==> s[i] != c
    ensures Split(s, [c]) == [s]
  {
    forall j | 0 <= j <= |s| - 1
      ensures !OccursAt(s, [c], j)
    {
      OccursAtChar(s, c, j);
    }
    assert !Contains(s, [c]);
    IndexOfSpec(s, [c]);
    SplitUnfold(s, [c]);
  }

  /** The first separator of a + [c] + b is the one after a. */
  lemma FirstSeparator(a: string, b: string, c: char)
    requires forall i :: 0 <= i < |a| ==> a[i] != c
    ensures IndexOf(a + [c] + b, [c]) == Some(|a|)
  {
    var s := a + [c] + b;
    OccursAtChar(s, c, |a|);
    assert Contains(s, [c]);
    IndexOfSpec(s, [c]);
    var i := IndexOf(s, [c]).value;
    OccursAtChar(s, c, i);
    assert forall k :: 0 <= k < |a| ==> s[k] == a[k];
  }

  /** Two lines joined by a one-character separator split back into those lines. */
  lemma SplitTwoLines(a: string, b: string, c: char)
    requires forall i :: 0 <= i < |a| ==> a[i] != c
    requires forall i :: 0 <= i < |b| ==> b[i] != c
    ensures Split(a + [c] + b, [c]) == [a, b]
  {
    var s := a + [c] + b;
    FirstSeparator(a, b, c);
    SplitAt(s, [c], |a|);
    assert s[..|a|] == a;
    assert s[|a| + 1..] == b;
    SplitWithoutSeparator(b, c);
  }

  /** LISTEN and the port must be on the same line: a LISTEN line with no
      port separator followed by a port line without LISTEN is not a match. */
  lemma ListenAndPortOnDifferentLines(listenLine: string, portLine: string, port: int, isMac: bool)
    requires forall i :: 0 <= i < |listenLine| ==> listenLine[i] != '\n' && listenLine[i] != ':' && listenLine[i] != '.'
    requires forall i :: 0 <= i < |portLine| ==> portLine[i] != '\n'
    requires !ContainsIgnoreCase(portLine, "LISTEN")
    ensures !ContainsNetstatPort(listenLine + "\n" + portLine, port, "\n", isMac)
  {
    SplitTwoLines(listenLine, portLine, '\n');
    var lines := Split(listenLine + "\n" + portLine, "\n");
    assert lines == [listenLine, portLine];
    NoSeparatorChar(listenLine, port);
    assert !ListeningLine(listenLine, port, isMac);
    assert !ListeningLine(portLine, port, isMac);
  }

  /** A line without ':' or '.' matches no port pattern. */
  lemma NoSeparatorChar(line: string, port: int)
    requires forall i :: 0 <= i < |line| ==> line[i] != ':' && line[i] != '.'
    ensures !MacPortMatch(line, port) && !PortMatch(line, port)
  {
    var p := IntToString(port);
    forall j ensures !OccursAt(line, ":" + p, j) && !OccursAt(line, "." + p, j) {
      if 0 <= j && j + 1 + |p| <= |line| {
        assert line[j..j + 1 + |p|][0] == line[j];
      }
    }
    forall j ensures !OccursAtIgnoreCase(line, ":" + p, j) {
      if 0 <= j && j + 1 + |p| <= |line| {
        var w := line[j..j + 1 + |p|];
        assert w[0] == line[j];
        assert FoldAll(w)[0] == Fold(line[j]);
        assert FoldAll(":" + p)[0] == ':';
      }
    }
  }
}
