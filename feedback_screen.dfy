/** `formatFeedback` of the feedback screen: the markdown-flavoured feedback
    text becomes HTML by three global regular-expression replacements applied
    in order, each with the `g` flag:
      1. `\*\*(.*?)\*\*`          ->  a <strong ...> element around the group,
      2. `\n`                     ->  <br />,
      3. `\* (.*?)(?=<br \/>|$)`  ->  an <li ...> element around the group.
    A global replacement scans left to right: where the pattern matches it
    emits the replacement and resumes after the match, elsewhere it copies one
    character and tries again one position later. None of the patterns looks
    behind, so a match attempt depends only on the text from its position on,
    and each pass is a recursion over suffixes. The lazy `.*?` takes as few
    characters as it can, and `.` matches any character but a line terminator. */
module FeedbackScreen {
  import opened Types
  import opened JsString

  const StrongOpen: string := "<strong class=\"font-bold text-slate-800 dark:text-slate-100\">"
  const StrongClose: string := "</strong>"
  const LineBreak: string := "<br />"
  const ItemOpen: string := "<li class=\"ml-4 list-disc\">"
  const ItemClose: string := "</li>"

  /** The list markup holds no newline, and `<br />` no `*`. */
  lemma MarkupIsInert()
    ensures '\n' !in ItemOpen && '\n' !in ItemClose && '*' !in LineBreak
  {
  }

  /** No line terminator among the characters from `i` up to `j`. */
  predicate OneLine(s: string, i: nat, j: nat) {
    forall k :: i <= k < j && k < |s| ==> !IsLineTerminator(s[k])
  }

  // ---------------------------------------------------------------- pass 1

  /** After an opening `**` that ends just before position `j`, the lazy
      group can stop at `e`: `**` follows there and the group stays on one
      line. */
  predicate BoldCloseAt(s: string, j: nat, e: nat) {
    j <= e && e + 1 < |s| && s[e] == '*' && s[e + 1] == '*' && OneLine(s, j, e)
  }

  /** Where the group of `\*\*(.*?)\*\*` ends when its opening `**` ends just
      before `j`: the first `**` from `j` on, or `None` when a line
      terminator or the end of the text comes first. `BoldCloseLeast`
      shows this is the least stopping point. */
  function BoldClose(s: string, j: nat): (r: Option<nat>)
    requires j <= |s|
    ensures r.Some? ==> j <= r.value && r.value + 1 < |s|
    decreases |s| - j
  {
    if j + 1 >= |s| then None
    else if s[j] == '*' && s[j + 1] == '*' then Some(j)
    else if IsLineTerminator(s[j]) then None
    else BoldClose(s, j + 1)
  }

  /** The lazy group stops at the least point where it can, and is `None`
      exactly when it can stop nowhere. */
  lemma {:induction false} BoldCloseLeast(s: string, j: nat)
    requires j <= |s|
    ensures BoldClose(s, j).Some? ==> BoldCloseAt(s, j, BoldClose(s, j).value)
    ensures BoldClose(s, j).Some? ==>
      forall e :: j <= e < BoldClose(s, j).value ==> !BoldCloseAt(s, j, e)
    ensures BoldClose(s, j).None? ==> forall e :: j <= e ==> !BoldCloseAt(s, j, e)
    decreases |s| - j
  {
    if j + 1 >= |s| {
    } else if s[j] == '*' && s[j + 1] == '*' {
    } else if IsLineTerminator(s[j]) {
    } else {
      BoldCloseLeast(s, j + 1);
      assert forall e :: j < e ==> (BoldCloseAt(s, j, e) <==> BoldCloseAt(s, j + 1, e));
    }
  }

  /** The first pass: every `**group**` (group on one line, shortest first)
      becomes a `<strong>` element around the group. */
  function BoldPass(s: string): string
    decreases |s|
  {
    if |s| == 0 then ""
    else if |s| >= 2 && s[0] == '*' && s[1] == '*' && BoldClose(s, 2).Some? then
      var e := BoldClose(s, 2).value;
      StrongOpen + s[2..e] + StrongClose + BoldPass(s[e + 2..])
    else [s[0]] + BoldPass(s[1..])
  }

  // ---------------------------------------------------------------- pass 2

  /** The second pass: every `\n` becomes `<br />`. */
  function BreakPass(s: string): string
    decreases |s|
  {
    if |s| == 0 then ""
    else (if s[0] == '\n' then LineBreak else [s[0]]) + BreakPass(s[1..])
  }

  // ---------------------------------------------------------------- pass 3

  /** `<br />` starts at position `e`. */
  predicate BreakAt(s: string, e: nat) {
    && e + 6 <= |s|
    && s[e] == '<' && s[e + 1] == 'b' && s[e + 2] == 'r'
    && s[e + 3] == ' ' && s[e + 4] == '/' && s[e + 5] == '>'
  }

  /** After a `* ` that ends just before position `j`, the lazy group can
      stop at `e`: the lookahead `(?=<br \/>|$)` holds there and the group
      stays on one line. */
  predicate ItemEndAt(s: string, j: nat, e: nat) {
    j <= e <= |s| && (e == |s| || BreakAt(s, e)) && OneLine(s, j, e)
  }

  /** Where the group of `\* (.*?)(?=<br \/>|$)` ends when its `* ` ends
      just before `j`: the first `<br />` or the end of the text from `j`
      on, or `None` when a line terminator comes first. `ItemEndLeast`
      shows this is the least stopping point. */
  function ItemEnd(s: string, j: nat): (r: Option<nat>)
    requires j <= |s|
    ensures r.Some? ==> j <= r.value <= |s|
    decreases |s| - j
  {
    if j == |s| || BreakAt(s, j) then Some(j)
    else if IsLineTerminator(s[j]) then None
    else ItemEnd(s, j + 1)
  }

  /** The lazy group stops at the least point where the lookahead holds,
      and is `None` exactly when it holds nowhere on the line. */
  lemma {:induction false} ItemEndLeast(s: string, j: nat)
    requires j <= |s|
    ensures ItemEnd(s, j).Some? ==> ItemEndAt(s, j, ItemEnd(s, j).value)
    ensures ItemEnd(s, j).Some? ==>
      forall e :: j <= e < ItemEnd(s, j).value ==> !ItemEndAt(s, j, e)
    ensures ItemEnd(s, j).None? ==> forall e :: j <= e ==> !ItemEndAt(s, j, e)
    decreases |s| - j
  {
    if j == |s| || BreakAt(s, j) {
    } else if IsLineTerminator(s[j]) {
    } else {
      ItemEndLeast(s, j + 1);
      assert forall e :: j < e ==> (ItemEndAt(s, j, e) <==> ItemEndAt(s, j + 1, e));
    }
  }

  /** The third pass: every `* ` up to the next `<br />` or the end of the
      text (on one line) becomes an `<li>` element around what follows the
      `* `; the `<br />` itself stays. */
  function ItemPass(s: string): string
    decreases |s|
  {
    if |s| == 0 then ""
    else if |s| >= 2 && s[0] == '*' && s[1] == ' ' && ItemEnd(s, 2).Some? then
      var e := ItemEnd(s, 2).value;
      ItemOpen + s[2..e] + ItemClose + ItemPass(s[e..])
    else [s[0]] + ItemPass(s[1..])
  }

  /** `formatFeedback`. */
  function FormatFeedback(text: string): string {
    ItemPass(BreakPass(BoldPass(text)))
  }

  // ------------------------------------------------ no newline survives

  lemma {:induction false} BreakPassNoNewline(s: string)
    ensures '\n' !in BreakPass(s)
    decreases |s|
  {
    if |s| > 0 {
      BreakPassNoNewline(s[1..]);
    }
  }

  lemma {:induction false} ItemPassNoNewline(s: string)
    requires '\n' !in s
    ensures '\n' !in ItemPass(s)
    decreases |s|
  {
    if |s| > 0 {
      MarkupIsInert();
      if |s| >= 2 && s[0] == '*' && s[1] == ' ' && ItemEnd(s, 2).Some? {
        var e := ItemEnd(s, 2).value;
        assert '\n' !in s[2..e];
        ItemPassNoNewline(s[e..]);
      } else {
        ItemPassNoNewline(s[1..]);
      }
    }
  }

  /** The formatted feedback contains no newline: the second pass replaces
      each one, and neither the `<strong>` nor the `<li>` markup adds any. */
  lemma FormatFeedbackNoNewline(text: string)
    ensures '\n' !in FormatFeedback(text)
  {
    BreakPassNoNewline(BoldPass(text));
    ItemPassNoNewline(BreakPass(BoldPass(text)));
  }

  // ------------------------------------------- plain text passes through

  /** Text without `*` is copied by the first pass. */
  lemma {:induction false} BoldPassPlain(x: string, t: string)
    requires '*' !in x
    ensures BoldPass(x + t) == x + BoldPass(t)
    decreases |x|
  {
    if x != [] {
      assert x[0] in x;
      var s := x + t;
      assert s[0] == x[0] && s[1..] == x[1..] + t;
      assert BoldPass(s) == [x[0]] + BoldPass(x[1..] + t);
      BoldPassPlain(x[1..], t);
      assert x == [x[0]] + x[1..];
    } else {
      assert x + t == t;
    }
  }

  /** Text without `\n` is copied by the second pass. */
  lemma {:induction false} BreakPassPlain(x: string)
    requires '\n' !in x
    ensures BreakPass(x) == x
    decreases |x|
  {
    if x != [] {
      assert x[0] in x;
      BreakPassPlain(x[1..]);
      assert x == [x[0]] + x[1..];
    }
  }

  /** Text without `*` is copied by the third pass. */
  lemma {:induction false} ItemPassPlain(x: string, t: string)
    requires '*' !in x
    ensures ItemPass(x + t) == x + ItemPass(t)
    decreases |x|
  {
    if x != [] {
      assert x[0] in x;
      var s := x + t;
      assert s[0] == x[0] && s[1..] == x[1..] + t;
      assert ItemPass(s) == [x[0]] + ItemPass(x[1..] + t);
      ItemPassPlain(x[1..], t);
      assert x == [x[0]] + x[1..];
    } else {
      assert x + t == t;
    }
  }

  /** Feedback with no `*` and no newline is shown exactly as received. */
  lemma FormatFeedbackPlain(text: string)
    requires '*' !in text && '\n' !in text
    ensures FormatFeedback(text) == text
  {
    BoldPassPlain(text, "");
    assert text + "" == text;
    BreakPassPlain(text);
    ItemPassPlain(text, "");
  }

  // ------------------------------------------------------- bold markup

  /** `**x**` with a one-line `x` free of `*` becomes a `<strong>` element
      around `x`, and the scan resumes right after the closing `**`: the
      match is the leftmost and the shortest. */
  lemma BoldPassStrong(x: string, rest: string)
    requires '*' !in x && NoLineTerminator(x)
    ensures BoldPass("**" + x + "**" + rest) == StrongOpen + x + StrongClose + BoldPass(rest)
  {
    var s := "**" + x + "**" + rest;
    var e := 2 + |x|;
    assert forall k :: 2 <= k < e ==> s[k] == x[k - 2];
    assert s[e] == '*' && s[e + 1] == '*';
    assert BoldCloseAt(s, 2, e);
    assert forall k :: 2 <= k < e ==> !BoldCloseAt(s, 2, k);
    BoldCloseLeast(s, 2);
    assert BoldClose(s, 2) == Some(e);
    assert s[2..e] == x;
    assert s[e + 2..] == rest;
  }

  /** Where no bold match starts, the first pass copies one character and
      moves on. */
  lemma BoldPassCopies(s: string)
    requires |s| > 0
    requires !(|s| >= 2 && s[0] == '*' && s[1] == '*' && BoldClose(s, 2).Some?)
    ensures BoldPass(s) == [s[0]] + BoldPass(s[1..])
  {
  }

  /** After `**`, a `*`-free run that ends at a line terminator or at the end
      of the text leaves the opening `**` without a close. */
  lemma BoldCloseMissing(x: string, tail: string)
    requires '*' !in x && NoLineTerminator(x)
    requires tail == [] || IsLineTerminator(tail[0])
    ensures BoldClose("**" + x + tail, 2) == None
  {
    var s := "**" + x + tail;
    var e := 2 + |x|;
    assert forall k :: 2 <= k < e ==> s[k] == x[k - 2];
    assert e < |s| ==> s[e] == tail[0];
    assert forall k :: 2 <= k ==> !BoldCloseAt(s, 2, k);
    BoldCloseLeast(s, 2);
  }

  /** A `*` that starts no bold match is copied. */
  lemma BoldPassStar(y: string)
    requires y == [] || y[0] != '*' || BoldClose("*" + y, 2) == None
    ensures BoldPass("*" + y) == "*" + BoldPass(y)
  {
    var s := "*" + y;
    assert s[1..] == y;
    BoldPassCopies(s);
  }

  /** An opening `**` with no close is copied as its first `*`. */
  lemma BoldPassOpenOnly(y: string)
    requires BoldClose("**" + y, 2) == None
    ensures BoldPass("**" + y) == "*" + BoldPass("*" + y)
  {
    var s := "**" + y;
    assert s[1..] == "*" + y;
    BoldPassCopies(s);
  }

  /** When `t` is `s` without its first character and `s` holds `*` at 2,
      a closing point for `t` from 2 is one for `s` one position later. */
  lemma BoldCloseShiftAt(s: string, t: string)
    requires |s| >= 3 && s[1..] == t && s[2] == '*'
    requires BoldClose(s, 2) == None
    ensures BoldClose(t, 2) == None
  {
    assert forall k :: 0 <= k < |t| ==> s[k + 1] == t[k];
    forall e | 2 <= e ensures BoldCloseAt(t, 2, e) ==> BoldCloseAt(s, 2, e + 1) {
      if BoldCloseAt(t, 2, e) {
        assert s[e + 1] == t[e] && s[e + 2] == t[e + 1];
        assert forall k :: 3 <= k < e + 1 ==> s[k] == t[k - 1];
      }
    }
    BoldCloseLeast(s, 2);
    BoldCloseLeast(t, 2);
  }

  /** After `**` and a further `*`, a closing `**` for the inner `*` would
      also close the outer `**`, one position later. */
  lemma BoldCloseShift(y: string)
    requires |y| >= 1 && y[0] == '*'
    requires BoldClose("**" + y, 2) == None
    ensures BoldClose("*" + y, 2) == None
  {
    DropFirstStar(y);
    BoldCloseShiftAt("**" + y, "*" + y);
  }

  /** Index facts about `"**" + y` that BoldCloseShiftAt needs, kept apart
      from BoldClose so that the solver meets them on their own. */
  lemma DropFirstStar(y: string)
    requires |y| >= 1 && y[0] == '*'
    ensures |"**" + y| >= 3 && ("**" + y)[1..] == "*" + y && ("**" + y)[2] == '*'
  {
    assert ("**" + y)[1..] == "*" + y;
  }

  /** A `**` with no closing `**` later on its line stays as two literal
      asterisks, and the scan goes on right after them. */
  lemma BoldPassUnclosed(y: string)
    requires BoldClose("**" + y, 2) == None
    ensures BoldPass("**" + y) == "**" + BoldPass(y)
  {
    if |y| >= 1 && y[0] == '*' {
      BoldCloseShift(y);
    }
    calc {
      BoldPass("**" + y);
    == { BoldPassOpenOnly(y); }
      "*" + BoldPass("*" + y);
    == { BoldPassStar(y); }
      "*" + ("*" + BoldPass(y));
    == { StarStar(BoldPass(y)); }
      "**" + BoldPass(y);
    }
  }

  /** A one-line concatenation fact that only helps the solver. */
  lemma StarStar(b: string)
    ensures "*" + ("*" + b) == "**" + b
  {
  }

  /** In particular a `**` followed by `*`-free text up to the end of its
      line or of the text stays, and so does that text. */
  lemma BoldPassUnclosedLine(x: string, tail: string)
    requires '*' !in x && NoLineTerminator(x)
    requires tail == [] || IsLineTerminator(tail[0])
    ensures BoldPass("**" + x + tail) == "**" + x + BoldPass(tail)
  {
    var y := x + tail;
    Regroup("**", x, tail);
    BoldCloseMissing(x, tail);
    BoldPassUnclosed(y);
    BoldPassPlain(x, tail);
    Regroup("**", x, BoldPass(tail));
  }

  /** A one-line concatenation fact that only helps the solver. */
  lemma Regroup(a: string, b: string, c: string)
    ensures a + b + c == a + (b + c)
  {
  }

  // ------------------------------------------------------ line breaks

  /** The second pass works character by character. */
  lemma {:induction false} BreakPassConcat(a: string, b: string)
    ensures BreakPass(a + b) == BreakPass(a) + BreakPass(b)
    decreases |a|
  {
    if a != [] {
      var head := if a[0] == '\n' then LineBreak else [a[0]];
      calc {
        BreakPass(a + b);
      == { assert (a + b)[0] == a[0]; assert (a + b)[1..] == a[1..] + b; }
        head + BreakPass(a[1..] + b);
      == { BreakPassConcat(a[1..], b); }
        head + (BreakPass(a[1..]) + BreakPass(b));
      ==
        head + BreakPass(a[1..]) + BreakPass(b);
      ==
        BreakPass(a) + BreakPass(b);
      }
    } else {
      assert a + b == b;
    }
  }

  /** Each character: `\n` becomes exactly `<br />`, anything else stays. */
  lemma BreakPassChar(c: char)
    ensures BreakPass([c]) == if c == '\n' then LineBreak else [c]
  {
    assert [c][1..] == [];
  }

  /** The inverse of the second pass on text that has no `<br />` of its own. */
  function UnBreak(s: string): string
    decreases |s|
  {
    if |s| == 0 then ""
    else if BreakAt(s, 0) then "\n" + UnBreak(s[|LineBreak|..])
    else [s[0]] + UnBreak(s[1..])
  }

  /** On text without `<`, the second pass loses nothing: undoing it gives
      the text back. */
  lemma {:induction false} UnBreakBreakPass(s: string)
    requires '<' !in s
    ensures UnBreak(BreakPass(s)) == s
    decreases |s|
  {
    if s != [] {
      assert s[0] in s;
      assert '<' !in s[1..] by {
        forall j | 0 <= j < |s| - 1 ensures s[1..][j] != '<' {
          assert s[1..][j] == s[j + 1];
        }
      }
      UnBreakBreakPass(s[1..]);
      var b := BreakPass(s);
      if s[0] == '\n' {
        assert b == LineBreak + BreakPass(s[1..]);
        assert BreakAt(b, 0);
        assert b[|LineBreak|..] == BreakPass(s[1..]);
      } else {
        assert b == [s[0]] + BreakPass(s[1..]);
        assert b[1..] == BreakPass(s[1..]);
      }
      assert s == [s[0]] + s[1..];
    }
  }

  // ------------------------------------------------------- list items

  /** `* x` followed by `<br />` or by the end of the text, with a one-line
      `x` free of `<`, becomes an `<li>` element around `x`; what follows
      is scanned afresh. */
  lemma ItemPassItem(x: string, tail: string)
    requires NoLineTerminator(x)
    requires forall k :: 2 <= k < 2 + |x| ==> !BreakAt("* " + x + tail, k)
    requires tail == [] || BreakAt(tail, 0)
    ensures ItemPass("* " + x + tail) == ItemOpen + x + ItemClose + ItemPass(tail)
  {
    var s := "* " + x + tail;
    var e := 2 + |x|;
    ItemEndFound(x, tail);
    calc {
      ItemPass(s);
    ==
      ItemOpen + s[2..e] + ItemClose + ItemPass(s[e..]);
    == { assert s[2..e] == x; assert s[e..] == tail; }
      ItemOpen + x + ItemClose + ItemPass(tail);
    }
  }

  /** The group of an item stops at `e` when the lookahead holds there
      and no earlier position starts `<br />` or holds a line terminator. */
  lemma ItemEndAtFirst(s: string, e: nat)
    requires 2 <= e <= |s| && (e == |s| || BreakAt(s, e))
    requires forall k :: 2 <= k < e ==> !BreakAt(s, k) && !IsLineTerminator(s[k])
    ensures ItemEnd(s, 2) == Some(e)
  {
    assert ItemEndAt(s, 2, e);
    ItemEndLeast(s, 2);
  }

  /** The group of `* x` ends right before the `<br />` or the end of the
      text that follows it, when no `<br />` starts inside `x`. */
  lemma ItemEndFound(x: string, tail: string)
    requires NoLineTerminator(x)
    requires forall k :: 2 <= k < 2 + |x| ==> !BreakAt("* " + x + tail, k)
    requires tail == [] || BreakAt(tail, 0)
    ensures ItemEnd("* " + x + tail, 2) == Some(2 + |x|)
  {
    ItemTextOneLine(x, tail);
    ItemTailIsBreak(x, tail);
    ItemEndAtFirst("* " + x + tail, 2 + |x|);
  }

  /** In `* x` followed by anything, no character of `x` is a line
      terminator. */
  lemma ItemTextOneLine(x: string, tail: string)
    requires NoLineTerminator(x)
    ensures forall k :: 2 <= k < 2 + |x| ==> !IsLineTerminator(("* " + x + tail)[k])
  {
    var s := "* " + x + tail;
    forall k | 2 <= k < 2 + |x| ensures !IsLineTerminator(s[k]) {
      assert s[k] == x[k - 2];
    }
  }

  /** An item text without `<` holds no `<br />`. */
  lemma ItemTextWithoutAngle(x: string, tail: string)
    requires '<' !in x
    ensures forall k :: 2 <= k < 2 + |x| ==> !BreakAt("* " + x + tail, k)
  {
    var s := "* " + x + tail;
    forall k | 2 <= k < 2 + |x| ensures !BreakAt(s, k) {
      assert s[k] == x[k - 2] && x[k - 2] in x;
    }
  }

  /** In `* x` followed by `<br />…` or nothing, the lookahead holds right
      after `x`. */
  lemma ItemTailIsBreak(x: string, tail: string)
    requires tail == [] || BreakAt(tail, 0)
    ensures 2 + |x| == |"* " + x + tail| || BreakAt("* " + x + tail, 2 + |x|)
  {
    var s := "* " + x + tail;
    assert forall k :: 0 <= k < |tail| ==> s[2 + |x| + k] == tail[k];
  }

  /** The `<br />` that ends an item is kept in the output. */
  lemma ItemPassKeepsBreak(rest: string)
    ensures ItemPass(LineBreak + rest) == LineBreak + ItemPass(rest)
  {
    MarkupIsInert();
    ItemPassPlain(LineBreak, rest);
  }

  /** A single `*` followed by text without `*` is copied by the first pass. */
  lemma BoldPassLoneStar(x: string, body: string)
    requires '*' !in x && '*' !in body
    ensures BoldPass(x + "*" + body) == x + "*" + body
  {
    BoldPassPlain(x, "*" + body);
    var s := "*" + body;
    assert s[1..] == body;
    BoldPassPlain(body, "");
    assert body + "" == body;
    assert BoldPass(s) == "*" + BoldPass(body);
    assert x + "*" + body == x + s;
  }
}
