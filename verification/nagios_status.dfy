/**
 * The Nagios status-line parser of mlabns.util.nagios_status.
 *
 * A status line reads `<fqdn>/<tool> <state> <state type> <extra notes...>`.
 * The parser splits it on single spaces into four fields; when that split
 * yields an empty piece (repeated, leading or trailing spaces) it falls back
 * to dropping every empty token and joining the tokens after the third one.
 * It returns the fqdn without its tool suffix, the state and the extra notes,
 * or raises NagiosStatusUnparseableError.
 */
module NagiosStatus {
  import opened Wrappers

  /** The message carried by every unparseable-status error. */
  const UNPARSEABLE_CAUSE: string := "Nagios status missing or unparseable."

  datatype Error = NagiosStatusUnparseableError(cause: string)

  /** The triple (sliver fqdn, current state, extra information). */
  datatype SliverToolStatus = SliverToolStatus(sliverFqdn: string, state: string, toolExtra: string)

  /** The characters Python 2's `str.isspace` treats as whitespace. */
  predicate IsWhitespace(c: char) {
    c == ' ' || c == '\t' || c == '\n' || c == '\r' || c == '\U{0B}' || c == '\U{0C}'
  }

  /** Python's `s.isspace()`: non-empty and made of whitespace only. */
  predicate IsSpace(s: string) {
    |s| > 0 && forall i :: 0 <= i < |s| ==> IsWhitespace(s[i])
  }

  // ---------------------------------------------------------------------
  // Finding a character

  /** The index of the first `c` in `s`, or `|s|` when there is none. */
  function Find(s: string, c: char): (i: nat)
    ensures i <= |s|
  {
    if s == [] then 0
    else if s[0] == c then 0
    else 1 + Find(s[1..], c)
  }

  /** When `Find` stops before the end, it stops at a `c`. */
  lemma {:induction false} FindHit(s: string, c: char)
    ensures Find(s, c) < |s| ==> s[Find(s, c)] == c
  {
    if s != [] && s[0] != c {
      FindHit(s[1..], c);
    }
  }

  /** `Find` passes over no `c`. */
  lemma {:induction false} FindSkips(s: string, c: char)
    ensures forall j :: 0 <= j < Find(s, c) ==> s[j] != c
  {
    if s != [] && s[0] != c {
      FindSkips(s[1..], c);
      forall j | 0 <= j < Find(s, c) ensures s[j] != c {
        if j > 0 {
          assert s[j] == s[1..][j - 1];
        }
      }
    }
  }

  /** `Find` reaches the end exactly when `c` does not occur. */
  lemma FindAbsent(s: string, c: char)
    ensures Find(s, c) == |s| <==> c !in s
  {
    FindHit(s, c);
    FindSkips(s, c);
  }

  /** After a prefix free of `c`, the first `c` is the one appended to it. */
  lemma {:induction false} FindAfterPrefix(a: string, c: char, t: string)
    requires Find(a, c) == |a|
    ensures Find(a + [c] + t, c) == |a|
  {
    if a != [] {
      assert (a + [c] + t)[1..] == a[1..] + [c] + t;
      FindAfterPrefix(a[1..], c, t);
    }
  }

  /** The part before the first `c` holds no `c`. */
  lemma {:induction false} FindPrefixAbsent(s: string, c: char)
    ensures Find(s[..Find(s, c)], c) == Find(s, c)
  {
    if s != [] && s[0] != c {
      assert s[..Find(s, c)][1..] == s[1..][..Find(s[1..], c)];
      FindPrefixAbsent(s[1..], c);
    }
  }

  /** No space occurs in `s` (see `FindAbsent`). */
  predicate SpaceFree(s: string) {
    Find(s, ' ') == |s|
  }

  // ---------------------------------------------------------------------
  // Splitting and joining

  /** Python's `' '.join(parts)`. */
  function Join(parts: seq<string>): string {
    if |parts| == 0 then ""
    else if |parts| == 1 then parts[0]
    else parts[0] + " " + Join(parts[1..])
  }

  /**
   * Python's `s.split(' ', maxsplit)`: at most `maxsplit` cuts at single
   * spaces, left to right; the last piece keeps the rest of the line.
   */
  function SplitMax(s: string, maxsplit: nat): (pieces: seq<string>)
    ensures 1 <= |pieces| <= maxsplit + 1
    decreases maxsplit
  {
    var i := Find(s, ' ');
    if maxsplit == 0 || i == |s| then [s]
    else [s[..i]] + SplitMax(s[i + 1..], maxsplit - 1)
  }

  /** Python's `s.split(' ')`: cuts at every single space. */
  function Split(s: string): (pieces: seq<string>)
    ensures |pieces| >= 1
    decreases |s|
  {
    var i := Find(s, ' ');
    if i == |s| then [s]
    else [s[..i]] + Split(s[i + 1..])
  }

  /** Joining a first piece to a non-empty rest puts one space between them. */
  lemma JoinCons(first: string, rest: seq<string>)
    requires |rest| >= 1
    ensures Join([first] + rest) == first + " " + Join(rest)
  {
    assert ([first] + rest)[1..] == rest;
  }

  /** A line with a space is its part before the first space, the space, and the rest. */
  lemma CutAtFirstSpace(s: string)
    requires Find(s, ' ') < |s|
    ensures s == s[..Find(s, ' ')] + " " + s[Find(s, ' ') + 1..]
  {
    FindHit(s, ' ');
    CutAt(s, Find(s, ' '));
  }

  /** A line is the part before a space, the space, and the part after it. */
  lemma CutAt(s: string, i: nat)
    requires i < |s| && s[i] == ' '
    ensures s == s[..i] + " " + s[i + 1..]
  {
    assert s[i..] == " " + s[i + 1..];
    assert s == s[..i] + s[i..];
  }

  /** The pieces of `split(' ', n)` join back to the line. */
  lemma {:induction false} SplitMaxJoin(s: string, maxsplit: nat)
    ensures Join(SplitMax(s, maxsplit)) == s
    decreases maxsplit
  {
    var i := Find(s, ' ');
    if maxsplit != 0 && i < |s| {
      SplitMaxJoin(s[i + 1..], maxsplit - 1);
      JoinCons(s[..i], SplitMax(s[i + 1..], maxsplit - 1));
      CutAtFirstSpace(s);
    }
  }

  /** The pieces of `split(' ')` join back to the line. */
  lemma {:induction false} SplitJoinBack(s: string)
    ensures Join(Split(s)) == s
    decreases |s|
  {
    var i := Find(s, ' ');
    if i < |s| {
      SplitJoinBack(s[i + 1..]);
      JoinCons(s[..i], Split(s[i + 1..]));
      CutAtFirstSpace(s);
    }
  }

  /**
   * Every piece of `split(' ', n)` but the last is free of spaces, and so is
   * the last when fewer than n cuts were made.
   */
  lemma {:induction false} SplitMaxSpaceFree(s: string, maxsplit: nat)
    ensures forall k :: 0 <= k < |SplitMax(s, maxsplit)| - 1 ==> SpaceFree(SplitMax(s, maxsplit)[k])
    ensures |SplitMax(s, maxsplit)| <= maxsplit ==> SpaceFree(SplitMax(s, maxsplit)[|SplitMax(s, maxsplit)| - 1])
    decreases maxsplit
  {
    var i := Find(s, ' ');
    if maxsplit != 0 && i < |s| {
      SplitMaxSpaceFree(s[i + 1..], maxsplit - 1);
      FindPrefixAbsent(s, ' ');
    }
  }

  /** No piece of `split(' ')` holds a space. */
  lemma {:induction false} SplitSpaceFree(s: string)
    ensures forall k :: 0 <= k < |Split(s)| ==> SpaceFree(Split(s)[k])
    decreases |s|
  {
    var i := Find(s, ' ');
    if i < |s| {
      SplitSpaceFree(s[i + 1..]);
      FindPrefixAbsent(s, ' ');
    }
  }

  /** A space-free first field splits off as the first piece of `split(' ', n + 1)`. */
  lemma SplitMaxAfterField(a: string, t: string, n: nat)
    requires SpaceFree(a)
    ensures SplitMax(a + " " + t, n + 1) == [a] + SplitMax(t, n)
  {
    var s := a + " " + t;
    FindAfterPrefix(a, ' ', t);
    assert s[..|a|] == a;
    assert s[|a| + 1..] == t;
  }

  /** A space-free first field splits off as the first piece of `split(' ')`. */
  lemma SplitAfterField(a: string, t: string)
    requires SpaceFree(a)
    ensures Split(a + " " + t) == [a] + Split(t)
  {
    var s := a + " " + t;
    FindAfterPrefix(a, ' ', t);
    assert s[..|a|] == a;
    assert s[|a| + 1..] == t;
  }

  /** A bounded split that used fewer cuts than allowed cut at every space. */
  lemma {:induction false} SplitMaxUnsaturated(s: string, n: nat)
    requires |SplitMax(s, n)| <= n
    ensures SplitMax(s, n) == Split(s)
    decreases n
  {
    var i := Find(s, ' ');
    if i < |s| {
      SplitMaxUnsaturated(s[i + 1..], n - 1);
    }
  }

  /** Splitting what Join built from space-free pieces gives the pieces back. */
  lemma {:induction false} SplitJoin(parts: seq<string>)
    requires |parts| >= 1
    requires forall k :: 0 <= k < |parts| ==> SpaceFree(parts[k])
    ensures Split(Join(parts)) == parts
  {
    if |parts| > 1 {
      SplitJoin(parts[1..]);
      SplitAfterField(parts[0], Join(parts[1..]));
    }
  }

  /** Three space-free fields followed by a space are the first three pieces of `split(' ')`. */
  lemma SplitAfterThreeFields(a: string, b: string, c: string, d: string)
    requires SpaceFree(a) && SpaceFree(b) && SpaceFree(c)
    ensures Split(a + " " + b + " " + c + " " + d) == [a, b, c] + Split(d)
  {
    var t2 := c + " " + d;
    var t1 := b + " " + t2;
    calc {
      Split(a + " " + b + " " + c + " " + d);
      { assert a + " " + b + " " + c + " " + d == a + " " + t1; }
      Split(a + " " + t1);
      { SplitAfterField(a, t1); }
      [a] + Split(t1);
      { SplitAfterField(b, t2); }
      [a] + ([b] + Split(t2));
      { SplitAfterField(c, d); }
      [a] + ([b] + ([c] + Split(d)));
      [a, b, c] + Split(d);
    }
  }

  /** Three space-free fields followed by a space are the first three pieces of `split(' ', 3)`. */
  lemma SplitMaxAfterThreeFields(a: string, b: string, c: string, d: string)
    requires SpaceFree(a) && SpaceFree(b) && SpaceFree(c)
    ensures SplitMax(a + " " + b + " " + c + " " + d, 3) == [a, b, c, d]
  {
    var t2 := c + " " + d;
    var t1 := b + " " + t2;
    calc {
      SplitMax(a + " " + b + " " + c + " " + d, 3);
      { assert a + " " + b + " " + c + " " + d == a + " " + t1; }
      SplitMax(a + " " + t1, 3);
      { SplitMaxAfterField(a, t1, 2); }
      [a] + SplitMax(t1, 2);
      { SplitMaxAfterField(b, t2, 1); }
      [a] + ([b] + SplitMax(t2, 1));
      { SplitMaxAfterField(c, d, 0); }
      [a] + ([b] + ([c] + [d]));
      [a, b, c, d];
    }
  }

  /** Join of four pieces. */
  lemma JoinFour(p: seq<string>)
    requires |p| == 4
    ensures Join(p) == p[0] + " " + p[1] + " " + p[2] + " " + p[3]
  {
    assert Join(p[3..]) == p[3] by { assert p[3..] == [p[3]]; }
    assert Join(p[2..]) == p[2] + " " + Join(p[3..]) by { assert p[2..][1..] == p[3..]; }
    assert Join(p[1..]) == p[1] + " " + Join(p[2..]) by { assert p[1..][1..] == p[2..]; }
  }

  // ---------------------------------------------------------------------
  // Tokens

  /** `[x for x in pieces if x != '']`. */
  function NonEmpty(pieces: seq<string>): (tokens: seq<string>)
    ensures |tokens| <= |pieces|
    ensures forall k :: 0 <= k < |tokens| ==> tokens[k] != ""
  {
    if pieces == [] then []
    else (if pieces[0] == "" then [] else [pieces[0]]) + NonEmpty(pieces[1..])
  }

  /** Dropping empty pieces keeps the remaining ones space-free. */
  lemma {:induction false} NonEmptyKeepsSpaceFree(pieces: seq<string>)
    requires forall k :: 0 <= k < |pieces| ==> SpaceFree(pieces[k])
    ensures forall k :: 0 <= k < |NonEmpty(pieces)| ==> SpaceFree(NonEmpty(pieces)[k])
  {
    if pieces != [] {
      NonEmptyKeepsSpaceFree(pieces[1..]);
    }
  }

  /** Dropping empty pieces distributes over concatenation. */
  lemma {:induction false} NonEmptyAppend(p: seq<string>, q: seq<string>)
    ensures NonEmpty(p + q) == NonEmpty(p) + NonEmpty(q)
  {
    if p != [] {
      assert (p + q)[0] == p[0];
      assert (p + q)[1..] == p[1..] + q;
      NonEmptyAppend(p[1..], q);
    } else {
      assert p + q == q;
    }
  }

  /** Pieces that are all non-empty are kept, all of them and in order. */
  lemma {:induction false} NonEmptyKeepsTokens(pieces: seq<string>)
    requires forall k :: 0 <= k < |pieces| ==> pieces[k] != ""
    ensures NonEmpty(pieces) == pieces
  {
    if pieces != [] {
      NonEmptyKeepsTokens(pieces[1..]);
      assert [pieces[0]] + pieces[1..] == pieces;
    }
  }

  /** An empty piece vanishes wherever it stands; nothing else changes. */
  lemma NonEmptyDropsEmpty(p: seq<string>, q: seq<string>)
    ensures NonEmpty(p + [""] + q) == NonEmpty(p + q)
  {
    NonEmptyAppend(p + [""], q);
    NonEmptyAppend(p, [""]);
    NonEmptyAppend(p, q);
    assert NonEmpty([""]) == [] by { assert [""][1..] == []; }
  }

  /** The non-empty tokens between the spaces of `s`. */
  function Words(s: string): (tokens: seq<string>)
    ensures forall k :: 0 <= k < |tokens| ==> tokens[k] != "" && SpaceFree(tokens[k])
  {
    SplitSpaceFree(s);
    NonEmptyKeepsSpaceFree(Split(s));
    NonEmpty(Split(s))
  }

  /** Joining non-empty space-free tokens by single spaces and taking the words gives the tokens back. */
  lemma WordsJoin(ts: seq<string>)
    requires |ts| >= 1
    requires forall k :: 0 <= k < |ts| ==> ts[k] != "" && SpaceFree(ts[k])
    ensures Words(Join(ts)) == ts
  {
    SplitJoin(ts);
    NonEmptyKeepsTokens(ts);
  }

  /** Three space-free non-empty fields followed by a space are the first three words. */
  lemma WordsAfterThreeFields(a: string, b: string, c: string, d: string)
    requires a != "" && b != "" && c != ""
    requires SpaceFree(a) && SpaceFree(b) && SpaceFree(c)
    ensures Words(a + " " + b + " " + c + " " + d) == [a, b, c] + Words(d)
  {
    SplitAfterThreeFields(a, b, c, d);
    NonEmptyAppend([a, b, c], Split(d));
    assert NonEmpty([c]) == [c] by { assert [c][1..] == []; }
    assert NonEmpty([b, c]) == [b, c] by { assert [b, c][1..] == [c]; }
    assert NonEmpty([a, b, c]) == [a, b, c] by { assert [a, b, c][1..] == [b, c]; }
  }

  // ---------------------------------------------------------------------
  // The parser

  /** `field.split('/')[0]`: the field up to its first slash. */
  function FqdnOf(field: string): (fqdn: string)
    ensures '/' !in fqdn && fqdn <= field
    ensures fqdn == field || field[|fqdn|] == '/'
  {
    FindHit(field, '/');
    FindSkips(field, '/');
    field[..Find(field, '/')]
  }

  /** The list `sliver_fields` that the parser indexes. */
  function SliverFields(status: string): (fields: seq<string>)
    ensures 1 <= |fields| <= 4
    ensures |fields| == 4 ==>
      && fields[0] != "" && SpaceFree(fields[0])
      && fields[1] != "" && SpaceFree(fields[1])
      && fields[2] != "" && SpaceFree(fields[2])
  {
    SplitMaxSpaceFree(status, 3);
    var pieces := SplitMax(status, 3);
    if "" in pieces then
      var tokens := Words(status);
      var k := if |tokens| < 3 then |tokens| else 3;
      tokens[..k] + [Join(tokens[k..])]
    else pieces
  }

  /** Parses one status line into (sliver fqdn, state, extra information). */
  function ParseSliverToolStatus(status: string): (r: Result<SliverToolStatus, Error>)
    ensures r.Ok? ==> !IsSpace(status)
    ensures r.Ok? ==> '/' !in r.value.sliverFqdn
    ensures r.Ok? ==> r.value.state != "" && SpaceFree(r.value.state)
    ensures r.Err? ==> r.error == NagiosStatusUnparseableError(UNPARSEABLE_CAUSE)
  {
    var fields := SliverFields(status);
    if |fields| != 4 || IsSpace(status) then Err(NagiosStatusUnparseableError(UNPARSEABLE_CAUSE))
    else Ok(SliverToolStatus(FqdnOf(fields[0]), fields[1], fields[3]))
  }

  // ---------------------------------------------------------------------
  // Properties of the parser

  /** A line whose first field is not all whitespace is not all whitespace. */
  lemma NotSpaceAfterPrefix(a: string, b: string, c: string, d: string)
    requires a != "" && !IsSpace(a)
    ensures !IsSpace(a + " " + b + " " + c + " " + d)
  {
    var i :| 0 <= i < |a| && !IsWhitespace(a[i]);
    assert (a + " " + b + " " + c + " " + d)[i] == a[i];
  }

  /** A line made only of whitespace is unparseable. */
  lemma ParseAllWhitespace(status: string)
    requires IsSpace(status)
    ensures ParseSliverToolStatus(status) == Err(NagiosStatusUnparseableError(UNPARSEABLE_CAUSE))
  {
  }

  /**
   * Fast path: when `split(' ', 3)` yields no empty piece, the line parses
   * iff there are four pieces and it is not all whitespace; the extra field
   * is then the raw remainder after the third space.
   */
  lemma ParseFastPath(status: string)
    requires "" !in SplitMax(status, 3)
    ensures ParseSliverToolStatus(status).Ok? <==> |SplitMax(status, 3)| == 4 && !IsSpace(status)
    ensures ParseSliverToolStatus(status).Ok? ==>
      var p := SplitMax(status, 3);
      var r := ParseSliverToolStatus(status).value;
      && p[0] != "" && SpaceFree(p[0]) && p[1] != "" && SpaceFree(p[1]) && p[2] != "" && SpaceFree(p[2])
      && status == p[0] + " " + p[1] + " " + p[2] + " " + r.toolExtra
      && r == SliverToolStatus(FqdnOf(p[0]), p[1], p[3])
  {
    var p := SplitMax(status, 3);
    SplitMaxSpaceFree(status, 3);
    if |p| == 4 {
      SplitMaxJoin(status, 3);
      JoinFour(p);
    }
  }

  /**
   * Fallback path: when `split(' ', 3)` yields an empty piece, the empty
   * tokens are dropped; the line parses iff at least three tokens remain and
   * it is not all whitespace, and the extra field is the fourth and later
   * tokens joined by single spaces (empty when there are exactly three).
   */
  lemma ParseFallbackPath(status: string)
    requires "" in SplitMax(status, 3)
    ensures ParseSliverToolStatus(status).Ok? <==> |Words(status)| >= 3 && !IsSpace(status)
    ensures ParseSliverToolStatus(status).Ok? ==>
      var w := Words(status);
      ParseSliverToolStatus(status).value == SliverToolStatus(FqdnOf(w[0]), w[1], Join(w[3..]))
    ensures |Words(status)| == 3 && !IsSpace(status) ==>
      ParseSliverToolStatus(status).Ok? && ParseSliverToolStatus(status).value.toolExtra == ""
  {
  }

  /**
   * A line made of three space-free fields and a non-empty remainder parses
   * to the fqdn of the first field, the second field and the remainder
   * exactly as written, whatever spacing the remainder holds.
   */
  lemma ParseFourFields(fqdnField: string, state: string, stateType: string, extra: string)
    requires fqdnField != "" && state != "" && stateType != "" && extra != ""
    requires ' ' !in fqdnField && ' ' !in state && ' ' !in stateType
    requires !IsSpace(fqdnField)
    ensures ParseSliverToolStatus(fqdnField + " " + state + " " + stateType + " " + extra)
         == Ok(SliverToolStatus(FqdnOf(fqdnField), state, extra))
  {
    var s := fqdnField + " " + state + " " + stateType + " " + extra;
    FindAbsent(fqdnField, ' ');
    FindAbsent(state, ' ');
    FindAbsent(stateType, ' ');
    SplitMaxAfterThreeFields(fqdnField, state, stateType, extra);
    NotSpaceAfterPrefix(fqdnField, state, stateType, extra);
    ParseFastPath(s);
  }

  /** The state-type field is discarded: changing it never changes the result. */
  lemma ParseIgnoresStateType(fqdnField: string, state: string, stateType: string, otherType: string, extra: string)
    requires fqdnField != "" && state != "" && stateType != "" && otherType != "" && extra != ""
    requires ' ' !in fqdnField && ' ' !in state && ' ' !in stateType && ' ' !in otherType
    requires !IsSpace(fqdnField)
    ensures ParseSliverToolStatus(fqdnField + " " + state + " " + stateType + " " + extra)
         == ParseSliverToolStatus(fqdnField + " " + state + " " + otherType + " " + extra)
  {
    ParseFourFields(fqdnField, state, stateType, extra);
    ParseFourFields(fqdnField, state, otherType, extra);
  }

  /**
   * On the fallback path the third token is discarded too: two lines whose
   * tokens differ at most in the third parse alike.
   */
  lemma ParseIgnoresStateTypeFallback(status: string, other: string)
    requires "" in SplitMax(status, 3) && "" in SplitMax(other, 3)
    requires |Words(status)| == |Words(other)|
    requires forall k :: 0 <= k < |Words(status)| && k != 2 ==> Words(status)[k] == Words(other)[k]
    requires IsSpace(status) == IsSpace(other)
    ensures ParseSliverToolStatus(status) == ParseSliverToolStatus(other)
  {
    ParseFallbackPath(status);
    ParseFallbackPath(other);
    var w, v := Words(status), Words(other);
    if |w| >= 3 {
      assert w[3..] == v[3..];
      assert w[0] == v[0] && w[1] == v[1];
    }
  }

  /** The fqdn is the first field up to its first slash. */
  lemma FqdnOfToolSuffix(fqdn: string, tool: string)
    requires '/' !in fqdn
    ensures FqdnOf(fqdn + "/" + tool) == fqdn
  {
    FindAbsent(fqdn, '/');
    FindAfterPrefix(fqdn, '/', tool);
    assert (fqdn + "/" + tool)[..|fqdn|] == fqdn;
  }

  /** How the documented example's first field is put together. */
  lemma DocExampleFqdnField()
    ensures "ndt.foo.measurement-lab.org" + "/" + "ndt" == "ndt.foo.measurement-lab.org/ndt"
  {
  }

  /** How the first three fields of the documented example line are put together. */
  lemma DocExampleFields()
    ensures "ndt.foo.measurement-lab.org/ndt" + " " + "0" + " " + "1" + " " == "ndt.foo.measurement-lab.org/ndt 0 1 "
  {
  }

  /** How the documented example line is put together. */
  lemma DocExampleLayout()
    ensures "ndt.foo.measurement-lab.org/ndt 0 1 " + "TCP OK - 0.242 second response time"
         == "ndt.foo.measurement-lab.org/ndt 0 1 TCP OK - 0.242 second response time"
  {
  }

  /** The documented example's first field is a single token that is not whitespace. */
  lemma DocExampleFieldShape()
    ensures var field := "ndt.foo.measurement-lab.org/ndt";
      field != "" && ' ' !in field && !IsSpace(field)
  {
    var field := "ndt.foo.measurement-lab.org/ndt";
    assert !IsWhitespace(field[0]);
  }

  /** The example of the parser's documentation. */
  lemma ParseDocExample()
    ensures ParseSliverToolStatus("ndt.foo.measurement-lab.org/ndt 0 1 TCP OK - 0.242 second response time")
         == Ok(SliverToolStatus("ndt.foo.measurement-lab.org", "0", "TCP OK - 0.242 second response time"))
  {
    var field := "ndt.foo.measurement-lab.org/ndt";
    DocExampleFqdnField();
    DocExampleFields();
    DocExampleLayout();
    DocExampleFieldShape();
    FqdnOfToolSuffix("ndt.foo.measurement-lab.org", "ndt");
    ParseFourFields(field, "0", "1", "TCP OK - 0.242 second response time");
  }

  /**
   * On both paths a parsed line has at least three tokens, and its fqdn and
   * state come from the first two of them.
   */
  lemma ParseUsesFirstTwoTokens(status: string)
    ensures ParseSliverToolStatus(status).Ok? ==>
      var w := Words(status);
      var r := ParseSliverToolStatus(status).value;
      |w| >= 3 && r.sliverFqdn == FqdnOf(w[0]) && r.state == w[1]
  {
    var p := SplitMax(status, 3);
    if ParseSliverToolStatus(status).Ok? && "" !in p {
      ParseFastPath(status);
      WordsAfterThreeFields(p[0], p[1], p[2], p[3]);
    }
  }

  /** A line with four or more tokens that is not all whitespace always parses. */
  lemma ParseFourTokens(status: string)
    requires |Words(status)| >= 4 && !IsSpace(status)
    ensures ParseSliverToolStatus(status).Ok?
  {
    var p := SplitMax(status, 3);
    if "" !in p && |p| != 4 {
      SplitMaxUnsaturated(status, 3);
      assert false;
    }
  }

  /** Three tokens separated by single spaces take the fast path and are rejected. */
  lemma ParseThreeTokensSingleSpaced(fqdnField: string, state: string, stateType: string)
    requires fqdnField != "" && state != "" && stateType != ""
    requires ' ' !in fqdnField && ' ' !in state && ' ' !in stateType
    ensures ParseSliverToolStatus(fqdnField + " " + state + " " + stateType).Err?
  {
    var line := fqdnField + " " + state + " " + stateType;
    FindAbsent(fqdnField, ' ');
    FindAbsent(state, ' ');
    FindAbsent(stateType, ' ');
    calc {
      SplitMax(line, 3);
      { assert line == fqdnField + " " + (state + " " + stateType); }
      SplitMax(fqdnField + " " + (state + " " + stateType), 3);
      { SplitMaxAfterField(fqdnField, state + " " + stateType, 2); }
      [fqdnField] + SplitMax(state + " " + stateType, 2);
      { SplitMaxAfterField(state, stateType, 1); }
      [fqdnField] + ([state] + [stateType]);
    }
    ParseFastPath(line);
  }

  /** The words of `a  b c` are a, b and c. */
  lemma WordsOfDoubleSpaced(a: string, b: string, c: string)
    requires a != "" && b != "" && c != ""
    requires SpaceFree(a) && SpaceFree(b) && SpaceFree(c)
    ensures Words(a + " " + "" + " " + b + " " + c) == [a, b, c]
  {
    SplitAfterThreeFields(a, "", b, c);
    assert Split(c) == [c];
    NonEmptyAppend([a, "", b], [c]);
    NonEmptyAppend([a], ["", b]);
    assert [a, "", b] == [a] + ["", b];
    assert NonEmpty([a]) == [a] by { assert [a][1..] == []; }
    assert NonEmpty(["", b]) == [b] by {
      assert ["", b][1..] == [b];
      assert [b][1..] == [];
    }
    assert NonEmpty([c]) == [c] by { assert [c][1..] == []; }
  }

  /**
   * Three tokens with a doubled space take the fallback path and are
   * accepted, with an empty extra field.
   */
  lemma ParseThreeTokensDoubleSpaced(fqdnField: string, state: string, stateType: string)
    requires fqdnField != "" && state != "" && stateType != ""
    requires ' ' !in fqdnField && ' ' !in state && ' ' !in stateType
    requires !IsSpace(fqdnField)
    ensures ParseSliverToolStatus(fqdnField + " " + "" + " " + state + " " + stateType)
         == Ok(SliverToolStatus(FqdnOf(fqdnField), state, ""))
  {
    var line := fqdnField + " " + "" + " " + state + " " + stateType;
    FindAbsent(fqdnField, ' ');
    FindAbsent(state, ' ');
    FindAbsent(stateType, ' ');
    SplitMaxAfterThreeFields(fqdnField, "", state, stateType);
    assert SplitMax(line, 3)[1] == "";
    WordsOfDoubleSpaced(fqdnField, state, stateType);
    NotSpaceAfterPrefix(fqdnField, "", state, stateType);
    ParseFallbackPath(line);
  }
}
