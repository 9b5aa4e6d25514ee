/** appendToUserDataCloudConfig of cloud/services/instance.go: commands spliced into the text after "runcmd:". */
module UserData {
  import opened Strings

  const RUNCMD := "runcmd:"
  const ITEM := "\n  - "

  /** A panic is a slice out of range. */
  datatype Result = Ok(text: string) | Panic

  /** Where the first command goes. With no "runcmd:" the index is -1 and this is 6, wherever that may be. */
  function SplicePoint(userData: string): (r: nat)
    ensures Contains(userData, RUNCMD) ==> 7 <= r <= |userData| && OccursAt(userData, RUNCMD, r - 7)
    ensures !Contains(userData, RUNCMD) ==> r == 6
  {
    Index(userData, RUNCMD) + |RUNCMD|
  }

  function Block(cmds: seq<string>): string {
    if cmds == [] then "" else ITEM + cmds[0] + Block(cmds[1..])
  }

  function Splice(userData: string, cmds: seq<string>): Result {
    var at := SplicePoint(userData);
    if cmds == [] then Ok(userData)
    else if at > |userData| then Panic
    else Ok(userData[..at] + Block(cmds) + userData[at..])
  }

  lemma {:induction false} BlockConcat(a: seq<string>, b: seq<string>)
    ensures Block(a + b) == Block(a) + Block(b)
  {
    if a == [] {
      assert a + b == b;
    } else {
      assert (a + b)[1..] == a[1..] + b;
      BlockConcat(a[1..], b);
      assert (ITEM + a[0]) + (Block(a[1..]) + Block(b)) == (ITEM + a[0] + Block(a[1..])) + Block(b);
    }
  }

  /** The length of the items of the first n commands, each with a newline, two spaces, a dash and a space before it. */
  function Width(cmds: seq<string>, n: nat): nat
    requires n <= |cmds|
  {
    if n == 0 then 0 else Width(cmds, n - 1) + 5 + |cmds[n - 1]|
  }

  lemma {:induction false} BlockWidth(cmds: seq<string>, n: nat)
    requires n <= |cmds|
    ensures |Block(cmds[..n])| == Width(cmds, n)
  {
    hide Block;
    if n > 0 {
      assert cmds[..n] == cmds[..n - 1] + [cmds[n - 1]];
      BlockConcat(cmds[..n - 1], [cmds[n - 1]]);
      BlockOfOne(cmds[n - 1]);
      BlockWidth(cmds, n - 1);
    } else {
      BlockOfNone();
    }
  }

  lemma BlockOfOne(cmd: string)
    ensures Block([cmd]) == "\n  - " + cmd
  {
    assert [cmd][1..] == [] && Block([cmd]) == ITEM + cmd + "";
  }

  lemma BlockOfNone()
    ensures Block([]) == ""
  {
  }

  lemma Middle(a: string, b: string, c: string, d: string)
    ensures (a + (b + c) + d)[|a|..|a| + |b|] == b && (a + (b + c) + d)[|a| + |b|..|a| + |b| + |c|] == c
  {
  }

  lemma AroundOne(cmds: seq<string>, n: nat)
    requires n < |cmds|
    ensures cmds == cmds[..n] + ([cmds[n]] + cmds[n + 1..])
  {
  }

  lemma BlockSplit(cmds: seq<string>, n: nat)
    requires n < |cmds|
    ensures Block(cmds) == Block(cmds[..n]) + ("\n  - " + cmds[n]) + Block(cmds[n + 1..])
  {
    hide Block;
    var before, one, after := cmds[..n], [cmds[n]], cmds[n + 1..];
    AroundOne(cmds, n);
    BlockConcat(before, one + after);
    BlockConcat(one, after);
    BlockOfOne(cmds[n]);
    Regroup(Block(before), Block(one), Block(after));
  }

  lemma Regroup(a: string, b: string, c: string)
    ensures a + (b + c) == a + b + c
  {
  }

  /** What stands where in a block: the n-th command begins five characters after the end of the one before. */
  lemma BlockHolds(cmds: seq<string>, n: nat)
    requires n < |cmds|
    ensures |Block(cmds)| == Width(cmds, |cmds|) >= Width(cmds, n) + 5 + |cmds[n]|
    ensures var w := Width(cmds, n);
            Block(cmds)[w..w + 5] == "\n  - " && Block(cmds)[w + 5..w + 5 + |cmds[n]|] == cmds[n]
  {
    hide Block, Width;
    BlockSplit(cmds, n);
    BlockWidth(cmds, n);
    BlockWidth(cmds, |cmds|);
    assert cmds[..|cmds|] == cmds;
    Middle(Block(cmds[..n]), "\n  - ", cmds[n], Block(cmds[n + 1..]));
  }

  method AppendToUserDataCloudConfig(userData: string, commands: seq<string>) returns (r: Result)
    ensures r == Splice(userData, commands)
  {
    hide OccursAt, IndexFrom;
    var text := userData;
    var at := Index(userData, RUNCMD) + |RUNCMD|;
    ghost var start := at;
    if commands != [] && at > |userData| {
      return Panic;
    }
    for i := 0 to |commands|
      invariant at == start + |Block(commands[..i])|
      invariant commands != [] ==> start <= |userData| && text == userData[..start] + Block(commands[..i]) + userData[start..]
      invariant commands == [] ==> text == userData
    {
      var item := ITEM + commands[i];
      assert text[..at] == userData[..start] + Block(commands[..i]) && text[at..] == userData[start..];
      text := text[..at] + item + text[at..];
      at := at + |item|;
      assert commands[..i + 1] == commands[..i] + [commands[i]];
      BlockConcat(commands[..i], [commands[i]]);
      assert Block([commands[i]]) == item + "";
    }
    assert commands[..|commands|] == commands;
    return Ok(text);
  }

  /**
   The commands follow "runcmd:", the first one, exactly when the text has one to follow. Without one they go to index 6,
   and the slices are out of bounds exactly when there is no index 6.
   */
  lemma SpliceFollowsRuncmd(userData: string, cmds: seq<string>)
    requires cmds != []
    ensures Contains(userData, RUNCMD) ==> Splice(userData, cmds).Ok?
    ensures forall j: nat :: OccursAt(userData, RUNCMD, j) ==> SplicePoint(userData) <= j + 7
    ensures Splice(userData, cmds).Panic? <==> !Contains(userData, RUNCMD) && |userData| < 6
    ensures !Contains(userData, RUNCMD) && |userData| >= 6 ==>
              Splice(userData, cmds) == Ok(userData[..6] + Block(cmds) + userData[6..])
    ensures Splice(userData, cmds).Ok? ==>
              var at := SplicePoint(userData);
              at <= |userData| && (Contains(userData, RUNCMD) <==> exists before :: userData[..at] == before + RUNCMD)
  {
    var at := SplicePoint(userData);
    if Contains(userData, RUNCMD) {
      assert userData[..at] == userData[..at - 7] + userData[at - 7..at];
    } else {
      forall before | at <= |userData| ensures userData[..at] != before + RUNCMD {
        assert |userData[..at]| == 6;
      }
    }
  }

  /** A text on which the splice panics, and one that it breaks in two. */
  lemma SpliceWithoutRuncmd(cmd: string)
    ensures Splice("", [cmd]).Panic?
    ensures Splice("#!/bin/sh", [cmd]) == Ok("#!/bin" + Block([cmd]) + "/sh")
  {
    SpliceFollowsRuncmd("", [cmd]);
    var t := "#!/bin/sh";
    forall j: nat ensures !OccursAt(t, RUNCMD, j) {
      if j + 7 <= |t| { assert t[j..j + 7][0] == t[j] != 'r'; }
    }
    SpliceFollowsRuncmd(t, [cmd]);
    assert t[..6] == "#!/bin" && t[6..] == "/sh";
  }

  /** Taking the inserted block out again gives the original text back. */
  lemma SpliceUndone(userData: string, cmds: seq<string>)
    requires Splice(userData, cmds).Ok? && SplicePoint(userData) <= |userData|
    ensures var t, at, n := Splice(userData, cmds).text, SplicePoint(userData), |Block(cmds)|;
            && at + n <= |t| && t[at..at + n] == Block(cmds) && t[..at] + t[at + n..] == userData
  {
    var t, at, n := Splice(userData, cmds).text, SplicePoint(userData), |Block(cmds)|;
    if cmds != [] {
      assert t == userData[..at] + Block(cmds) + userData[at..];
      assert t[..at] == userData[..at] && t[at + n..] == userData[at..];
    }
    assert userData[..at] + userData[at..] == userData;
  }

  lemma SameStart(s: string, t: string, at: nat)
    requires at <= |s| && at <= |t| && s[..at] == t[..at]
    ensures forall j: nat {:trigger OccursAt(t, RUNCMD, j)} :: j + 7 <= at ==> OccursAt(s, RUNCMD, j) == OccursAt(t, RUNCMD, j)
  {
    forall j: nat | j + 7 <= at ensures OccursAt(s, RUNCMD, j) == OccursAt(t, RUNCMD, j) {
      assert s[j..j + 7] == s[..at][j..j + 7] && t[j..j + 7] == t[..at][j..j + 7];
    }
  }

  /** Nothing put in at the point moves the first "runcmd:". */
  lemma PointStays(userData: string, block: string)
    requires Contains(userData, RUNCMD)
    ensures var at := SplicePoint(userData);
            var t := userData[..at] + block + userData[at..];
            Contains(t, RUNCMD) && SplicePoint(t) == at
  {
    hide IndexFrom;
    var at := SplicePoint(userData);
    var t := userData[..at] + block + userData[at..];
    assert t[..at] == userData[..at];
    SameStart(userData, t, at);
    hide OccursAt;
    assert OccursAt(t, RUNCMD, at - 7);
    assert Index(t, RUNCMD) <= at - 7;
    assert OccursAt(userData, RUNCMD, Index(t, RUNCMD));
  }

  lemma SpliceTwice(before: string, after: string, a: string, b: string)
    ensures var t := before + b + after;
            t[..|before|] + a + t[|before|..] == before + (a + b) + after
  {
    var t := before + b + after;
    assert t[..|before|] == before && t[|before|..] == b + after;
    assert before + a + (b + after) == before + (a + b) + after;
  }

  /** Splicing composes: first b, then a, is a ++ b at once, so the last ones spliced run first. */
  lemma SpliceComposes(userData: string, a: seq<string>, b: seq<string>)
    requires Contains(userData, RUNCMD)
    ensures Splice(userData, b).Ok? && Splice(Splice(userData, b).text, a) == Splice(userData, a + b)
  {
    var at := SplicePoint(userData);
    if a == [] {
      assert a + b == b;
    } else if b == [] {
      assert a + b == a;
    } else {
      hide Block, SplicePoint, Contains, OccursAt;
      PointStays(userData, Block(b));
      BlockConcat(a, b);
      SpliceTwice(userData[..at], userData[at..], Block(a), Block(b));
    }
  }
}
