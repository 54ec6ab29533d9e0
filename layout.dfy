/** The three text primitives of the 32-column thermal receipt
    (`prepareThermalText` in app.js): `line` puts a label on the left and a
    value flush right, `center` centres a text, `wrap` cuts a text into
    lines of at most 32 characters. Each emits its own newline. */
module ThermalLayout {

  /** Characters per printed line. */
  const Width: nat := 32

  function Spaces(n: nat): (r: string)
    ensures |r| == n && forall i :: 0 <= i < n ==> r[i] == ' '
  {
    seq(n, _ => ' ')
  }

  /** `line(label, value)`: the label, enough spaces to end the value at
      column 32, the value, a newline. When label and value do not fit, no space is
      inserted and the line runs over. */
  function Line(caption: string, value: string): string
  {
    var gap := if |caption| + |value| >= Width then 0 else Width - |caption| - |value|;
    caption + Spaces(gap) + value + "\n"
  }

  lemma LineLayout(caption: string, value: string)
    ensures var r := Line(caption, value);
      && (|caption| + |value| <= Width ==> |r| == Width + 1)
      && (|caption| + |value| >= Width ==> r == caption + value + "\n")
      && |r| >= |caption| + |value| + 1 && r[..|caption|] == caption
      && r[|r| - 1 - |value|..|r| - 1] == value && r[|r| - 1] == '\n'
      && forall i :: |caption| <= i < |r| - 1 - |value| ==> r[i] == ' '
  {
  }

  /** `center(text)`: an empty text gives a bare newline; otherwise the text
      is preceded by half the free width, rounded down, so that the left
      margin equals the right one or falls one short of it. A text of 32
      characters or more is not indented. */
  function Center(text: string): string
  {
    if text == [] then "\n"
    else
      var margin := if |text| >= Width then 0 else (Width - |text|) / 2;
      Spaces(margin) + text + "\n"
  }

  lemma CenterLayout(text: string)
    ensures var r := Center(text);
      && (text == [] ==> r == "\n")
      && (text != [] ==> |r| >= |text| + 1 && r[|r| - 1 - |text|..] == text + "\n")
      && (text != [] ==> forall i :: 0 <= i < |r| - 1 - |text| ==> r[i] == ' ')
      && (text != [] && |text| <= Width ==>
            var margin := |r| - 1 - |text|;
            Width - 1 <= 2 * margin + |text| <= Width)
      && (|text| >= Width ==> r == text + "\n")
  {
  }

  function Min(a: int, b: int): int { if a <= b then a else b }

  /** The 32-character chunks of `text`, each followed by a newline. */
  function WrapBody(text: string): string
    decreases |text|
  {
    if |text| <= Width then (if text == [] then [] else text + "\n")
    else text[..Width] + "\n" + WrapBody(text[Width..])
  }

  /** What `wrap(text)` returns: a bare newline for an empty text. */
  function Wrap(text: string): string
  {
    if text == [] then "\n" else WrapBody(text)
  }

  /** `wrap(text)`: appends `text.substring(i, i + 32)` and a newline for
      i = 0, 32, 64, ... while i is inside the text. */
  method WrapText(text: string) returns (wrapped: string)
    ensures wrapped == Wrap(text)
  {
    if text == [] {
      return "\n";
    }
    wrapped := "";
    var i := 0;
    while i < |text|
      invariant 0 <= i
      invariant wrapped + WrapBody(text[Min(i, |text|)..]) == WrapBody(text)
    {
      var end := Min(i + Width, |text|);
      var rest := text[i..];
      if |rest| > Width {
        assert rest[..Width] == text[i..end] && rest[Width..] == text[end..];
      }
      wrapped := wrapped + text[i..end] + "\n";
      i := i + Width;
    }
  }

  /** Drops every newline character. */
  function RemoveNewlines(s: string): (r: string)
    ensures |r| <= |s|
  {
    if s == [] then []
    else (if s[0] == '\n' then [] else [s[0]]) + RemoveNewlines(s[1..])
  }

  lemma {:induction false} RemoveNewlinesAppend(a: string, b: string)
    ensures RemoveNewlines(a + b) == RemoveNewlines(a) + RemoveNewlines(b)
    decreases |a|
  {
    if a == [] {
      assert a + b == b;
    } else {
      assert (a + b)[1..] == a[1..] + b;
      RemoveNewlinesAppend(a[1..], b);
    }
  }

  lemma {:induction false} RemoveNewlinesNone(s: string)
    requires '\n' !in s
    ensures RemoveNewlines(s) == s
    decreases |s|
  {
    if s != [] {
      RemoveNewlinesNone(s[1..]);
    }
  }

  /** Wrapping only inserts newlines: removing them gives the text back. */
  lemma {:induction false} UnwrapRestoresText(text: string)
    requires '\n' !in text
    ensures RemoveNewlines(Wrap(text)) == text
  {
    if text == [] {
      assert "\n"[1..] == [];
    } else {
      WrapBodyUnwraps(text);
    }
  }

  lemma {:induction false} WrapBodyUnwraps(text: string)
    requires '\n' !in text
    ensures RemoveNewlines(WrapBody(text)) == text
    decreases |text|
  {
    if text == [] {
    } else if |text| <= Width {
      RemoveNewlinesAppend(text, "\n");
      RemoveNewlinesNone(text);
    } else {
      var head, tail := text[..Width], text[Width..];
      assert '\n' !in head && '\n' !in tail by {
        assert forall c :: c in head ==> c in text;
        assert forall c :: c in tail ==> c in text;
      }
      WrapBodyUnwraps(tail);
      RemoveNewlinesAppend(head + "\n", WrapBody(tail));
      RemoveNewlinesAppend(head, "\n");
      RemoveNewlinesNone(head);
      assert head + tail == text;
    }
  }

  /** The layout of a wrapped text without newlines of its own: one newline
      per started 32-character chunk, at every 33rd position and at the end,
      so no printed line is longer than 32 characters. */
  lemma {:induction false} WrapLayout(text: string)
    requires '\n' !in text && text != []
    ensures |Wrap(text)| == |text| + (|text| + Width - 1) / Width
    ensures forall i :: 0 <= i < |Wrap(text)| ==>
      (Wrap(text)[i] == '\n' <==> (i % (Width + 1) == Width || i == |Wrap(text)| - 1))
    decreases |text|
  {
    var w := Wrap(text);
    if |text| > Width {
      var head, tail := text[..Width], text[Width..];
      assert '\n' !in tail by {
        assert forall c :: c in tail ==> c in text;
      }
      WrapLayout(tail);
      var w' := Wrap(tail);
      assert w == head + "\n" + w';
      forall i | 0 <= i < |w|
        ensures w[i] == '\n' <==> (i % (Width + 1) == Width || i == |w| - 1)
      {
        if i < Width {
          assert w[i] == text[i];
          assert text[i] in text;
        } else if i > Width {
          assert w[i] == w'[i - (Width + 1)];
          assert i % (Width + 1) == (i - (Width + 1)) % (Width + 1);
        }
      }
    } else {
      forall i | 0 <= i < |w|
        ensures w[i] == '\n' <==> (i % (Width + 1) == Width || i == |w| - 1)
      {
        if i < |text| {
          assert w[i] == text[i];
          assert text[i] in text;
        }
      }
    }
  }
}
