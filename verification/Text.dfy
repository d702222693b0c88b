/** Character-level facts about the strings that plans and journals carry. */
module Text {

  predicate IsHex(c: char) {
    '0' <= c <= '9' || 'a' <= c <= 'f'
  }

  /** `^sha256:[0-9a-f]{64}$` */
  predicate IsFingerprint(s: string) {
    && |s| == 71
    && s[..7] == "sha256:"
    && forall i | 7 <= i < 71 :: IsHex(s[i])
  }

  lemma HexDigits()
    ensures forall c: char :: IsHex(c) <==> c in "0123456789abcdef"
  {
    assert "0123456789abcdef" == "0123456789" + "abcdef";
    assert forall c: char :: c in "0123456789" <==> '0' <= c <= '9';
    assert forall c: char :: c in "abcdef" <==> 'a' <= c <= 'f';
  }

  /** A tag and so many hexadecimal digits, such as `^rbt_[0-9a-f]{48}$`. */
  predicate IsTagged(text: string, tag: string, digits: nat) {
    |text| == |tag| + digits && tag <= text && forall i | |tag| <= i < |text| :: IsHex(text[i])
  }

  /** `[a-z]+` */
  predicate IsLowerWord(s: string) {
    |s| > 0 && forall i | 0 <= i < |s| :: 'a' <= s[i] <= 'z'
  }

  lemma FingerprintHasNoBar(id: string)
    requires IsFingerprint(id)
    ensures '|' !in id
  {
    assert id == "sha256:" + id[7..];
    assert '|' !in id[7..];
  }

  predicate OccursAt(hay: string, needle: string, i: nat) {
    i + |needle| <= |hay| && hay[i..i + |needle|] == needle
  }

  /** Python's `needle in hay` on strings. */
  predicate Contains(hay: string, needle: string) {
    exists i | 0 <= i <= |hay| :: OccursAt(hay, needle, i)
  }

  // ----- rows of fields ----------------------------------------------------------------

  /** Fields separated by bars. */
  function Bar(fields: seq<string>): string {
    if fields == [] then ""
    else if |fields| == 1 then fields[0]
    else fields[0] + "|" + Bar(fields[1..])
  }

  lemma BarCons(first: string, rest: seq<string>)
    requires rest != []
    ensures Bar([first] + rest) == first + "|" + Bar(rest)
  {
    assert ([first] + rest)[1..] == rest;
  }

  /** A text written at the end of the last field is written at the end of the row. */
  lemma {:induction false} BarLast(fields: seq<string>, last: string, more: string)
    ensures Bar(fields + [last + more]) == Bar(fields + [last]) + more
  {
    if fields == [] {
      assert fields + [last + more] == [last + more] && fields + [last] == [last];
    } else {
      BarLast(fields[1..], last, more);
      assert (fields + [last + more])[1..] == fields[1..] + [last + more];
      assert (fields + [last])[1..] == fields[1..] + [last];
    }
  }

  predicate NoBars(fields: seq<string>) {
    forall i | 0 <= i < |fields| :: '|' !in fields[i]
  }

  lemma NoBarAnywhere(s: string)
    requires '|' !in s
    ensures forall i | 0 <= i < |s| :: s[i] != '|'
  {
  }

  /** `|word|` occurs in a row only as one of its inner fields. */
  lemma {:induction false} WordIsInnerField(fields: seq<string>, word: string, i: nat)
    requires NoBars(fields) && '|' !in word
    requires OccursAt(Bar(fields), "|" + word + "|", i)
    ensures exists j | 0 < j < |fields| - 1 :: fields[j] == word
  {
    var row, pattern := Bar(fields), "|" + word + "|";
    assert row[i..i + |pattern|][0] == '|';
    if fields != [] {
      NoBarAnywhere(fields[0]);
    }
    if |fields| > 1 {
      var f, rest := fields[0], fields[1..];
      var tail := Bar(rest);
      assert row == f + "|" + tail;
      if i == |f| {
        assert tail[..|word| + 1] == row[i + 1..i + |pattern|] == word + "|";
        FieldBeforeBar(rest, word);
        assert fields[1] == word;
      } else if i > |f| {
        var k := i - |f| - 1;
        assert tail[k..k + |pattern|] == row[i..i + |pattern|];
        WordIsInnerField(rest, word, k);
        var j :| 0 < j < |rest| - 1 && rest[j] == word;
        assert fields[j + 1] == word;
      }
    }
  }

  /** What a row shows before its first bar is its first field, and then a field follows. */
  lemma FieldBeforeBar(fields: seq<string>, word: string)
    requires NoBars(fields) && '|' !in word
    requires word + "|" <= Bar(fields)
    ensures |fields| > 1 && fields[0] == word
  {
    var row := Bar(fields);
    assert row[|word|] == '|' && row[..|word|] == word;
    NoBarAnywhere(word);
    if fields != [] {
      NoBarAnywhere(fields[0]);
    }
    if |fields| > 1 {
      assert row == fields[0] + "|" + Bar(fields[1..]);
      assert row[|fields[0]|] == '|';
    }
  }

  // ----- numbers -----------------------------------------------------------------------

  function Digit(d: nat): char
    requires d < 10
  {
    '0' + d as char
  }

  function Decimal(n: nat): (s: string)
    ensures s != ""
  {
    if n < 10 then [Digit(n)] else Decimal(n / 10) + [Digit(n % 10)]
  }

  /** `f"{n:0{width}d}"` */
  function Padded(n: nat, width: nat): string {
    Zeros(width, |Decimal(n)|) + Decimal(n)
  }

  function Zeros(width: nat, used: nat): string {
    seq(if width > used then width - used else 0, _ => '0')
  }
}
