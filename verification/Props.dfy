// The properties of a service and its web server port: whichever of the two is given, they end
// up saying the same.
module Props {
  import opened Texts

  datatype Outcome =
    | Text(out: string)
    | HasPortAndNoKey
    | HasKeyAndNoPort
    | PortTooSmall
    | NoNumber          // the line of the key does not hold a number
    | Panicked          // the line of the key has no '='

  // What Props returns, and the key and port that it leaves in the service.
  datatype Answer = Answer(r: Outcome, key: string, port: int)

  const LEAST := 1024

  // The first line that starts with the key; |lines| if there is none.
  function KeyLine(lines: seq<string>, key: string): (l: nat)
    ensures l <= |lines|
    ensures l < |lines| ==> key <= lines[l]
    ensures forall k :: 0 <= k < l ==> !(key <= lines[k])
  {
    if lines == [] || key <= lines[0] then 0 else 1 + KeyLine(lines[1..], key)
  }

  // The number after the first '=' of a line, up to the next one.
  function PortOf(line: string): (int, bool)
    requires |Split(line, '=')| > 1
  {
    Atoi(TrimSpace(Split(line, '=')[1]))
  }

  function Setting(key: string, port: nat): string {
    key + ['='] + Itoa(port)
  }

  function PropsSpec(key0: string, port: int, props: string): Answer {
    var key := TrimSpace(key0);
    if key == "" then Answer(if port > 0 then HasPortAndNoKey else Text(props), key, port)
    else if 0 < port <= LEAST then Answer(PortTooSmall, key, port)
    else
      var lines := Split(props, '\n');
      var l := KeyLine(lines, key);
      if l < |lines| then
        if port > 0 then Answer(Text(Join(lines[l := Setting(key, port)], '\n')), key, port)
        else if |Split(lines[l], '=')| < 2 then Answer(Panicked, key, port)
        else
          var (n, ok) := PortOf(lines[l]);
          Answer(if !ok then NoNumber else if n <= LEAST then PortTooSmall else Text(Join(lines, '\n')), key, n)
      else if port <= LEAST then Answer(HasKeyAndNoPort, key, port)
      else Answer(Text(Setting(key, port) + ['\n'] + props), key, port)
  }

  class Service {
    var key: string
    var port: int
    var props: string

    constructor (key: string, port: int, props: string)
      ensures this.key == key && this.port == port && this.props == props
    {
      this.key, this.port, this.props := key, port, props;
    }

    method Props() returns (r: Outcome)
      modifies this`key, this`port
      ensures Answer(r, key, port) == PropsSpec(old(key), old(port), props)
    {
      key := TrimSpace(key);
      if key == "" && port > 0 {
        return HasPortAndNoKey;
      }
      if key == "" {
        return Text(props);
      }
      if 0 < port <= LEAST {
        return PortTooSmall;
      }
      var lines := Split(props, '\n');
      ghost var before := lines;
      var found := false;
      var l := 0;
      assert lines[0..] == lines;
      while l < |lines|
        invariant l <= |lines| && lines == before && port == old(port) && key == TrimSpace(old(key))
        invariant !found
        invariant KeyLine(lines, key) == l + KeyLine(lines[l..], key)
        decreases |lines| - l
      {
        var line := lines[l];
        assert lines[l..][0] == line && lines[l..][1..] == lines[l + 1..];
        if key <= line {
          found := true;
          assert KeyLine(lines, key) == l;
          if port <= 0 {
            var fields := Split(line, '=');
            if |fields| < 2 {
              return Panicked;
            }
            var (n, ok) := Atoi(TrimSpace(fields[1]));
            port := n;
            if !ok {
              return NoNumber;
            }
            if port <= LEAST {
              return PortTooSmall;
            }
            break;
          }
          lines := lines[l := Setting(key, port)];
          break;
        }
        l := l + 1;
      }
      if found {
        return Text(Join(lines, '\n'));
      }
      if port <= LEAST {
        return HasKeyAndNoPort;
      }
      return Text(Setting(key, port) + ['\n'] + props);
    }
  }

  // ----- properties and port agree -----

  predicate PlainKey(key: string) {
    key != "" && '=' !in key && '\n' !in key
  }

  // This line sets this port.
  predicate SetsPort(line: string, port: int) {
    |Split(line, '=')| > 1 && PortOf(line) == (port, true)
  }

  lemma SettingReads(key: string, port: nat)
    requires PlainKey(key) && port <= MAX_INT
    ensures SetsPort(Setting(key, port), port) && key <= Setting(key, port) && '\n' !in Setting(key, port)
  {
    AtoiItoa(port);
    SplitPrefix(key, Itoa(port), '=');
    SplitWithout(Itoa(port), '=');
  }

  lemma {:induction false} KeyLineIs(lines: seq<string>, key: string, l: nat)
    requires l < |lines| && key <= lines[l] && forall k :: 0 <= k < l ==> !(key <= lines[k])
    ensures KeyLine(lines, key) == l
  {
    if l > 0 {
      KeyLineIs(lines[1..], key, l - 1);
    }
  }

  // The lines of the result: those of the input, with the key's line set, or put in front.
  function LinesAfter(key: string, port: nat, given: bool, props: string): seq<string> {
    var lines := Split(props, '\n');
    var l := KeyLine(lines, key);
    if l == |lines| then [Setting(key, port)] + lines
    else if given then lines[l := Setting(key, port)]
    else lines
  }

  // When Props succeeds for a plain key, the port is a valid one above 1024, the first line of
  // the result that starts with the key sets exactly that port, and all other lines are the
  // input's, in order.
  lemma PropsAgree(key0: string, port0: int, props: string)
    requires port0 <= MAX_INT && PlainKey(TrimSpace(key0)) && PropsSpec(key0, port0, props).r.Text?
    ensures var a := PropsSpec(key0, port0, props);
      && a.key == TrimSpace(key0) && LEAST < a.port <= MAX_INT && (port0 > 0 ==> a.port == port0)
      && Split(a.r.out, '\n') == LinesAfter(a.key, a.port, port0 > 0, props)
      && var lines := Split(a.r.out, '\n');
         KeyLine(lines, a.key) < |lines| && SetsPort(lines[KeyLine(lines, a.key)], a.port)
  {
    var key := TrimSpace(key0);
    var a := PropsSpec(key0, port0, props);
    var lines := Split(props, '\n');
    var l := KeyLine(lines, key);
    SplitIsWithout(props, '\n');
    if l < |lines| && port0 <= 0 {
      JoinSplit(props, '\n');
    } else {
      SettingReads(key, port0);
      if l < |lines| {
        var changed := lines[l := Setting(key, port0)];
        SplitJoin(changed, '\n');
        KeyLineIs(changed, key, l);
      } else {
        SplitPrefix(Setting(key, port0), props, '\n');
        KeyLineIs([Setting(key, port0)] + lines, key, 0);
      }
    }
  }

  // ----- which outcome -----

  // The first line that starts with the key.
  predicate IsFirst(lines: seq<string>, key: string, l: nat) {
    l < |lines| && key <= lines[l] && forall k :: 0 <= k < l ==> !(key <= lines[k])
  }

  // This line has an '=', and what follows it reads as this number.
  predicate Reads(line: string, n: int) {
    |Split(line, '=')| > 1 && Atoi(TrimSpace(Split(line, '=')[1])) == (n, true)
  }

  // No line starts with the key.
  predicate Unset(lines: seq<string>, key: string) {
    forall l :: 0 <= l < |lines| ==> !(key <= lines[l])
  }

  // For any key and properties: without a key nothing is to be done, unless a port is given. With a
  // key and a port, the port must exceed 1024. With a key alone, the first line that starts with it
  // must hold one that does.
  lemma OutcomeExactly(key0: string, port: int, props: string)
    ensures var a, key, lines := PropsSpec(key0, port, props), TrimSpace(key0), Split(props, '\n');
      && a.key == key
      && (a.r == HasPortAndNoKey <==> key == "" && port > 0)
      && (a.r == HasKeyAndNoPort <==> key != "" && port <= 0 && Unset(lines, key))
      && (key == "" && port <= 0 ==> a.r == Text(props) && a.port == port)
      && (key != "" && port > 0 ==> (a.r.Text? <==> port > LEAST) && (a.r == PortTooSmall <==> port <= LEAST))
  {
    var lines, key := Split(props, '\n'), TrimSpace(key0);
    assert Unset(lines, key) <==> KeyLine(lines, key) == |lines|;
  }

  lemma OutcomeOfLine(key0: string, port: int, props: string, l: nat)
    requires TrimSpace(key0) != "" && port <= 0 && IsFirst(Split(props, '\n'), TrimSpace(key0), l)
    ensures var a, line := PropsSpec(key0, port, props), Split(props, '\n')[l];
      && (a.r == Panicked <==> '=' !in line)
      && (a.r == NoNumber <==> '=' in line && forall n :: !Reads(line, n))
      && (a.r == PortTooSmall <==> exists n :: Reads(line, n) && n <= LEAST)
      && (a.r.Text? <==> exists n :: Reads(line, n) && n > LEAST)
      && (a.r.Text? ==> a.r.out == props && Reads(line, a.port))
  {
    var lines := Split(props, '\n');
    var line := lines[l];
    KeyLineIs(lines, TrimSpace(key0), l);
    JoinSplit(props, '\n');
    if '=' !in line {
      SplitWithout(line, '=');
    } else {
      SplitApart(line, '=');
      var (n, ok) := PortOf(line);
      if ok {
        assert Reads(line, n);
      }
    }
  }

  // With a key and a port above 1024 the port is set, whatever the key: in the first line that starts
  // with it, or in a new line in front.
  lemma GivenPortIsSet(key0: string, port: nat, props: string, l: nat)
    requires TrimSpace(key0) != "" && port > LEAST
    requires Unset(Split(props, '\n'), TrimSpace(key0)) || IsFirst(Split(props, '\n'), TrimSpace(key0), l)
    ensures var key, lines := TrimSpace(key0), Split(props, '\n');
      PropsSpec(key0, port, props).r ==
        if Unset(lines, key) then Text(key + "=" + Itoa(port) + "\n" + props)
        else Text(Join(lines[l := key + "=" + Itoa(port)], '\n'))
  {
    var lines, key := Split(props, '\n'), TrimSpace(key0);
    assert Setting(key, port) == key + "=" + Itoa(port);
    if IsFirst(lines, key, l) {
      KeyLineIs(lines, key, l);
      assert !Unset(lines, key);
    } else {
      assert KeyLine(lines, key) == |lines|;
      assert "\n" == ['\n'];
    }
  }

  // Setting a line to what a text says already is the only way to keep the text.
  lemma SameText(text: string, l: nat, line: string)
    requires l < |Split(text, '\n')| && '\n' !in line
    ensures Join(Split(text, '\n')[l := line], '\n') == text <==> Split(text, '\n')[l] == line
  {
    var lines := Split(text, '\n');
    SplitIsWithout(text, '\n');
    var changed := lines[l := line];
    SplitJoin(changed, '\n');
    JoinSplit(text, '\n');
    assert changed[l] == line;
    if lines[l] == line {
      assert changed == lines;
    }
  }

  // With a port given, a second run keeps the text exactly if the key's line is in normal form.
  lemma SecondRun(key: string, port: nat, text: string)
    requires TrimSpace(key) == key && PlainKey(key) && LEAST < port <= MAX_INT
    requires KeyLine(Split(text, '\n'), key) < |Split(text, '\n')|
    ensures PropsSpec(key, port, text) == Answer(Text(text), key, port) <==>
            Split(text, '\n')[KeyLine(Split(text, '\n'), key)] == Setting(key, port)
  {
    SettingReads(key, port);
    SameText(text, KeyLine(Split(text, '\n'), key), Setting(key, port));
  }

  // The key's line of the result is in normal form if the port was given.
  lemma GivenIsNormal(key: string, port: nat, props: string)
    ensures var lines := LinesAfter(key, port, true, props);
      KeyLine(lines, key) < |lines| && lines[KeyLine(lines, key)] == Setting(key, port)
  {
    var before := Split(props, '\n');
    var l := KeyLine(before, key);
    var lines := LinesAfter(key, port, true, props);
    var k := if l < |before| then l else 0;
    assert lines[k] == Setting(key, port) && key <= lines[k];
    KeyLineIs(lines, key, k);
    assert KeyLine(lines, key) == k < |lines|;
  }

  // Running Props again on its own result changes nothing if the port was given. If it was read
  // from the properties, that holds exactly when the key's line was already in normal form.
  lemma PropsTwice(key0: string, port0: int, props: string)
    requires port0 <= MAX_INT && PlainKey(TrimSpace(key0)) && PropsSpec(key0, port0, props).r.Text?
    ensures var a := PropsSpec(key0, port0, props);
      var lines := Split(props, '\n');
      var l := KeyLine(lines, a.key);
      PropsSpec(a.key, a.port, a.r.out) == a <==> port0 > 0 || (l < |lines| && lines[l] == Setting(a.key, a.port))
  {
    hide PlainKey;
    hide Split;
    hide TrimSpace;
    var a := PropsSpec(key0, port0, props);
    PropsAgree(key0, port0, props);
    TrimTwice(key0);
    SecondRun(a.key, a.port, a.r.out);
    if port0 > 0 {
      GivenIsNormal(a.key, a.port, props);
    } else {
      assert KeyLine(Split(props, '\n'), a.key) < |Split(props, '\n')|;
    }
  }
}
