/**
  Value-level helpers shared by every component: optional settings fields,
  JavaScript's `||` fallback, ASCII lower-casing, substring search and the
  single-character `split` used by the button's border restore.
 */
module Common {

  /** A settings field that may be absent (`undefined` in the JSON document). */
  datatype Option<T> = None | Some(value: T) {
    function GetOr(default: T): (r: T)
      ensures Some? ==> r == value
      ensures None? ==> r == default
    {
      match this
      case Some(v) => v
      case None => default
    }
  }

  /** A navigation entry: `{ label, href }` (`label` is a Dafny keyword, hence `text`). */
  datatype Link = Link(text: string, href: string)

  /** JavaScript truthiness of an optional string: absent and `""` are falsy. */
  predicate Truthy(value: Option<string>) {
    value.Some? && value.value != ""
  }

  /**
    `value || fallback` for a string field. An empty string falls back just
    like an absent one, so the result is empty only when both are.
   */
  function OrDefault(value: Option<string>, fallback: string): (r: string)
    ensures Truthy(value) ==> r == value.value
    ensures !Truthy(value) ==> r == fallback
    ensures r == "" <==> !Truthy(value) && fallback == ""
  {
    if Truthy(value) then value.value else fallback
  }

  /**
    `value || fallback` for an array field. Every array is truthy in
    JavaScript, the empty one included, so only an absent list falls back.
   */
  function OrList<T>(value: Option<seq<T>>, fallback: seq<T>): (r: seq<T>)
    ensures value.Some? ==> r == value.value
    ensures value.None? ==> r == fallback
  {
    value.GetOr(fallback)
  }

  // ---------------------------------------------------------------------
  // ASCII case folding (`toLowerCase` restricted to A-Z)

  predicate IsUpper(c: char) {
    'A' <= c <= 'Z'
  }

  function LowerChar(c: char): (r: char)
    ensures IsUpper(c) ==> r as int == c as int + 32
    ensures !IsUpper(c) ==> r == c
    ensures !IsUpper(r)
  {
    if IsUpper(c) then (c as int + 32) as char else c
  }

  function ToLower(s: string): (r: string)
    ensures |r| == |s|
    ensures forall i :: 0 <= i < |s| ==> r[i] == LowerChar(s[i])
  {
    seq(|s|, i requires 0 <= i < |s| => LowerChar(s[i]))
  }

  /** Lower-casing twice is lower-casing once. */
  lemma ToLowerIdempotent(s: string)
    ensures ToLower(ToLower(s)) == ToLower(s)
  {
    var once := ToLower(s);
    forall i | 0 <= i < |s|
      ensures ToLower(once)[i] == once[i]
    {
      assert !IsUpper(once[i]);
    }
  }

  /** Lower-casing commutes with taking a slice. */
  lemma ToLowerSlice(s: string, i: int, j: int)
    requires 0 <= i <= j <= |s|
    ensures ToLower(s)[i..j] == ToLower(s[i..j])
  {
  }

  // ---------------------------------------------------------------------
  // Substring search (`String.prototype.includes`)

  /** `part` occurs in `text` starting at position `i`. */
  predicate OccursAt(text: string, part: string, i: int) {
    0 <= i && i + |part| <= |text| && text[i..i + |part|] == part
  }

  /** `text.includes(part)`. */
  predicate Contains(text: string, part: string)
    ensures Contains(text, part) ==> |part| <= |text|
  {
    exists i :: 0 <= i <= |text| && OccursAt(text, part, i)
  }

  /** Every string includes the empty string. */
  lemma ContainsEmpty(text: string)
    ensures Contains(text, "")
  {
    assert OccursAt(text, "", 0);
  }

  /** A string includes itself. */
  lemma ContainsSelf(text: string)
    ensures Contains(text, text)
  {
    assert OccursAt(text, text, 0);
  }

  /** Substring is transitive: a part of a part is a part. */
  lemma ContainsTransitive(a: string, b: string, c: string)
    requires Contains(a, b) && Contains(b, c)
    ensures Contains(a, c)
  {
    var i :| 0 <= i <= |a| && OccursAt(a, b, i);
    var j :| 0 <= j <= |b| && OccursAt(b, c, j);
    forall k | 0 <= k < |c|
      ensures a[i + j + k] == c[k]
    {
      assert a[i + j + k] == b[j + k];
    }
    assert a[i + j..i + j + |c|] == c;
    assert OccursAt(a, c, i + j);
  }

  /** Lower-casing both sides keeps an occurrence. */
  lemma ContainsLower(text: string, part: string)
    requires Contains(text, part)
    ensures Contains(ToLower(text), ToLower(part))
  {
    var i :| 0 <= i <= |text| && OccursAt(text, part, i);
    ToLowerSlice(text, i, i + |part|);
    assert OccursAt(ToLower(text), ToLower(part), i);
  }

  // ---------------------------------------------------------------------
  // `String.prototype.split` with a one-character separator, and its inverse

  /**
    `s.split(sep)`: the pieces between separators, in order. Adjacent
    separators yield empty pieces, and the empty string yields `[""]`.
   */
  function SplitOn(s: string, sep: char): (r: seq<string>)
    ensures |r| >= 1
    ensures forall k :: 0 <= k < |r| ==> sep !in r[k]
  {
    if s == [] then [""]
    else
      var rest := SplitOn(s[1..], sep);
      if s[0] == sep then [""] + rest
      else [[s[0]] + rest[0]] + rest[1..]
  }

  /** `pieces.join(sep)`. */
  function Join(pieces: seq<string>, sep: char): string
    requires |pieces| >= 1
  {
    if |pieces| == 1 then pieces[0]
    else pieces[0] + [sep] + Join(pieces[1..], sep)
  }

  lemma {:induction false} SplitOnWithoutSeparator(s: string, sep: char)
    requires sep !in s
    ensures SplitOn(s, sep) == [s]
  {
    if s != [] {
      SplitOnWithoutSeparator(s[1..], sep);
      assert [s[0]] + s[1..] == s;
    }
  }

  lemma {:induction false} SplitOnPrefix(piece: string, sep: char, tail: string)
    requires sep !in piece
    ensures SplitOn(piece + [sep] + tail, sep) == [piece] + SplitOn(tail, sep)
  {
    var s := piece + [sep] + tail;
    if piece == [] {
      assert s[1..] == tail;
    } else {
      assert s[1..] == piece[1..] + [sep] + tail;
      SplitOnPrefix(piece[1..], sep, tail);
      assert [piece[0]] + piece[1..] == piece;
    }
  }

  /** Splitting undoes joining pieces that do not contain the separator. */
  lemma {:induction false} SplitOnJoin(pieces: seq<string>, sep: char)
    requires |pieces| >= 1
    requires forall k :: 0 <= k < |pieces| ==> sep !in pieces[k]
    ensures SplitOn(Join(pieces, sep), sep) == pieces
  {
    if |pieces| == 1 {
      SplitOnWithoutSeparator(pieces[0], sep);
    } else {
      SplitOnJoin(pieces[1..], sep);
      SplitOnPrefix(pieces[0], sep, Join(pieces[1..], sep));
      assert [pieces[0]] + pieces[1..] == pieces;
    }
  }

  /** Joining undoes splitting. */
  lemma {:induction false} JoinSplitOn(s: string, sep: char)
    ensures Join(SplitOn(s, sep), sep) == s
  {
    if s != [] {
      JoinSplitOn(s[1..], sep);
      var rest := SplitOn(s[1..], sep);
      if s[0] == sep {
        assert Join([""] + rest, sep) == [sep] + Join(rest, sep);
      } else {
        var r := [[s[0]] + rest[0]] + rest[1..];
        if |rest| == 1 {
          assert Join(r, sep) == [s[0]] + rest[0];
        } else {
          assert r[1..] == rest[1..];
          assert Join(r, sep) == [s[0]] + rest[0] + [sep] + Join(rest[1..], sep);
        }
        assert [s[0]] + s[1..] == s;
      }
    }
  }
}
