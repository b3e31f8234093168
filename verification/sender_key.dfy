/** The key the bot's message handler looks for in a sender id: the target
    name lower-cased, with every run of whitespace deleted, then searched for
    as a substring of the message's `from` field. */
module SenderKey {
  import Chats

  /** The characters matched by `\s` in a JavaScript regular expression: the
      ECMAScript WhiteSpace and LineTerminator code points. */
  predicate IsJsWhitespace(c: char) {
    || c == '\t' || c == '\n' || c == '\U{000B}' || c == '\U{000C}' || c == '\r'
    || c == ' ' || c == '\U{00A0}' || c == '\U{1680}'
    || ('\U{2000}' <= c <= '\U{200A}')
    || c == '\U{2028}' || c == '\U{2029}' || c == '\U{202F}' || c == '\U{205F}'
    || c == '\U{3000}' || c == '\U{FEFF}'
  }

  predicate IsAsciiUpper(c: char) {
    'A' <= c <= 'Z'
  }

  /** Lower-cases one character (ASCII letters only). */
  function LowerChar(c: char): (r: char)
    ensures !IsAsciiUpper(r)
    ensures IsAsciiUpper(c) ==> r as int == c as int + 32
    ensures IsJsWhitespace(r) <==> IsJsWhitespace(c)
    ensures !IsAsciiUpper(c) ==> r == c
  {
    if IsAsciiUpper(c) then (c as int + 32) as char else c
  }

  /** `toLowerCase`: the same length, each character lowered in place. */
  function LowerCase(s: string): (r: string)
    ensures |r| == |s|
    ensures forall i :: 0 <= i < |s| ==> r[i] == LowerChar(s[i])
  {
    seq(|s|, i requires 0 <= i < |s| => LowerChar(s[i]))
  }

  /** `replace(/\s+/g, '')`: deleting every maximal whitespace run deletes
      every whitespace character and keeps all others in order. */
  function StripWhitespace(s: string): (r: string)
    ensures |r| <= |s|
    ensures forall i :: 0 <= i < |r| ==> !IsJsWhitespace(r[i])
  {
    if |s| == 0 then []
    else if IsJsWhitespace(s[0]) then StripWhitespace(s[1..])
    else [s[0]] + StripWhitespace(s[1..])
  }

  /** Deletion invents nothing: every kept character comes from the input. */
  lemma {:induction false} StripKeepsOnlyOriginal(s: string)
    ensures forall i :: 0 <= i < |StripWhitespace(s)| ==> StripWhitespace(s)[i] in s
  {
    if |s| > 0 {
      StripKeepsOnlyOriginal(s[1..]);
      forall i | 0 <= i < |StripWhitespace(s)|
        ensures StripWhitespace(s)[i] in s
      {
        if !IsJsWhitespace(s[0]) && i == 0 {
        } else {
          var k := if IsJsWhitespace(s[0]) then i else i - 1;
          assert StripWhitespace(s)[i] == StripWhitespace(s[1..])[k];
          assert StripWhitespace(s[1..])[k] in s[1..];
        }
      }
    }
  }

  /** Deletion loses nothing else: every non-whitespace input character is kept. */
  lemma {:induction false} StripKeepsNonWhitespace(s: string)
    ensures forall i :: 0 <= i < |s| && !IsJsWhitespace(s[i]) ==> s[i] in StripWhitespace(s)
  {
    if |s| > 0 {
      StripKeepsNonWhitespace(s[1..]);
      forall i | 0 <= i < |s| && !IsJsWhitespace(s[i])
        ensures s[i] in StripWhitespace(s)
      {
        if i > 0 {
          assert s[i] == s[1..][i - 1];
        }
      }
    }
  }

  /** The sender-match key built from a group name. */
  function Key(name: string): (r: string)
    ensures |r| <= |name|
    ensures forall i :: 0 <= i < |r| ==> !IsJsWhitespace(r[i]) && !IsAsciiUpper(r[i])
  {
    var lowered := LowerCase(name);
    StripKeepsOnlyOriginal(lowered);
    StripWhitespace(lowered)
  }

  /** `from.includes(key)`: `sub` occurs contiguously somewhere in `s`. */
  predicate Contains(s: string, sub: string) {
    exists i :: 0 <= i <= |s| && sub <= s[i..]
  }

  /** Whether the handler treats a message as coming from the named group. */
  predicate IsFromGroup(from: string, groupName: string) {
    Contains(from, Key(groupName))
  }

  lemma LowerCaseFixesLower(s: string)
    requires forall i :: 0 <= i < |s| ==> !IsAsciiUpper(s[i])
    ensures LowerCase(s) == s
  {
  }

  lemma {:induction false} StripFixesStripped(s: string)
    requires forall i :: 0 <= i < |s| ==> !IsJsWhitespace(s[i])
    ensures StripWhitespace(s) == s
  {
    if |s| > 0 {
      StripFixesStripped(s[1..]);
    }
  }

  /** Normalising an already normalised name changes nothing. */
  lemma KeyIdempotent(name: string)
    ensures Key(Key(name)) == Key(name)
  {
    var k := Key(name);
    LowerCaseFixesLower(k);
    StripFixesStripped(k);
  }

  /** The key of the bot's target group name. */
  lemma TargetKey()
    ensures Key(Chats.TargetGroupName) == "c-502cooktalks"
  {
    KeyOfTargetName(Chats.TargetGroupName);
  }

  /** A message counts as the target group's exactly when its sender id
      contains "c-502cooktalks". */
  lemma TargetSenderMatch(from: string)
    ensures IsFromGroup(from, Chats.TargetGroupName) <==> Contains(from, "c-502cooktalks")
  {
    TargetKey();
  }

  lemma KeyOfTargetName(s: string)
    requires s == "C-502 Cook Talks"
    ensures Key(s) == "c-502cooktalks"
  {
    var l := LowerCase(s);
    var a, sp1, c, sp2, t := l[..5], l[5..6], l[6..10], l[10..11], l[11..];
    assert l == a + sp1 + c + sp2 + t;
    TargetWordKept(s, a, 0, 5);
    TargetWordKept(s, c, 6, 10);
    TargetWordKept(s, t, 11, 16);
    TargetSpaceDropped(s, sp1, 5);
    TargetSpaceDropped(s, sp2, 10);
    StripAppend(a + sp1 + c + sp2, t);
    StripAppend(a + sp1 + c, sp2);
    StripAppend(a + sp1, c);
    StripAppend(a, sp1);
    TargetWordsSpell(s, a + c + t);
  }

  /** The three lowered words of the target name, run together. */
  lemma TargetWordsSpell(s: string, k: string)
    requires s == "C-502 Cook Talks"
    requires k == LowerCase(s)[..5] + LowerCase(s)[6..10] + LowerCase(s)[11..]
    ensures k == "c-502cooktalks"
  {
  }

  /** The three words of the lowered target name survive stripping whole. */
  lemma TargetWordKept(s: string, p: string, i: nat, j: nat)
    requires s == "C-502 Cook Talks"
    requires (i, j) in {(0, 5), (6, 10), (11, 16)}
    requires p == LowerCase(s)[i..j]
    ensures StripWhitespace(p) == p
  {
    forall k | 0 <= k < |p|
      ensures !IsJsWhitespace(p[k])
    {
      assert p[k] == LowerChar(s[i + k]);
    }
    StripFixesStripped(p);
  }

  /** The two spaces of the lowered target name are deleted. */
  lemma TargetSpaceDropped(s: string, p: string, i: nat)
    requires s == "C-502 Cook Talks"
    requires i == 5 || i == 10
    requires p == LowerCase(s)[i..i + 1]
    ensures StripWhitespace(p) == []
  {
  }

  /** Stripping a single character deletes it exactly when it is whitespace;
      with `StripAppend` this fixes the value of every stripped string. */
  lemma StripOneChar(c: char)
    ensures StripWhitespace([c]) == if IsJsWhitespace(c) then [] else [c]
  {
  }

  /** The key is built piecewise: the key of a concatenation is the
      concatenation of the keys. */
  lemma KeyAppend(a: string, b: string)
    ensures Key(a + b) == Key(a) + Key(b)
  {
    LowerAppend(a, b);
    StripAppend(LowerCase(a), LowerCase(b));
  }

  /** The key of one character: nothing for whitespace, otherwise the
      character lower-cased; with `KeyAppend` this fixes every key. */
  lemma KeyOneChar(c: char)
    ensures Key([c]) == if IsJsWhitespace(c) then [] else [LowerChar(c)]
  {
  }

  /** Lower-casing works piecewise on a concatenation. */
  lemma LowerAppend(a: string, b: string)
    ensures LowerCase(a + b) == LowerCase(a) + LowerCase(b)
  {
  }

  /** Whitespace deletion works piecewise on a concatenation. */
  lemma {:induction false} StripAppend(a: string, b: string)
    ensures StripWhitespace(a + b) == StripWhitespace(a) + StripWhitespace(b)
  {
    if |a| == 0 {
      assert a + b == b;
    } else {
      assert (a + b)[0] == a[0];
      assert (a + b)[1..] == a[1..] + b;
      StripAppend(a[1..], b);
    }
  }

  /** Unlike the group lookup, the key does not see spacing: inserting a
      whitespace character anywhere in a name leaves its key unchanged. */
  lemma KeyIgnoresWhitespace(a: string, b: string, w: char)
    requires IsJsWhitespace(w)
    ensures Key(a + [w] + b) == Key(a + b)
  {
    LowerAppend(a + [w], b);
    LowerAppend(a, [w]);
    LowerAppend(a, b);
    var la, lw, lb := LowerCase(a), LowerCase([w]), LowerCase(b);
    StripAppend(la + lw, lb);
    StripAppend(la, lw);
    StripAppend(la, lb);
    assert lw == [LowerChar(w)];
    BlankStripsToEmpty(lw);
  }

  /** A name made only of whitespace yields the empty key, which every sender
      id contains. */
  lemma {:induction false} BlankNameMatchesEverySender(name: string, from: string)
    requires forall i :: 0 <= i < |name| ==> IsJsWhitespace(name[i])
    ensures IsFromGroup(from, name)
  {
    BlankStripsToEmpty(LowerCase(name));
    assert Key(name) <= from[0..];
  }

  lemma {:induction false} BlankStripsToEmpty(s: string)
    requires forall i :: 0 <= i < |s| ==> IsJsWhitespace(s[i])
    ensures StripWhitespace(s) == []
  {
    if |s| > 0 {
      BlankStripsToEmpty(s[1..]);
    }
  }
}
