/** The text the middleware classifies and embeds: the `text` parts of the most
    recent message, in order, joined by newlines, and the JavaScript `trim`
    test that decides whether that text is empty. */
module FaqText {

  /** One content part of a message; the middleware reads only `text` parts.
      `kind` names the other part types (image, file, tool call, ...). */
  datatype Part = TextPart(text: string) | OtherPart(kind: string)

  /** `content.filter(type === 'text').map(c => c.text)`. */
  function TextsOf(content: seq<Part>): (texts: seq<string>)
    ensures forall t :: t in texts <==> TextPart(t) in content
  {
    if content == [] then []
    else (if content[0].TextPart? then [content[0].text] else []) + TextsOf(content[1..])
  }

  /** `Array.prototype.join(sep)`: the elements with `sep` between neighbours. */
  function Join(parts: seq<string>, sep: string): (r: string)
    ensures parts == [] ==> r == ""
  {
    if parts == [] then ""
    else if |parts| == 1 then parts[0]
    else parts[0] + sep + Join(parts[1..], sep)
  }

  /** The join starts with the first element, followed by the separator when
      there is a second, and ends with the last element. */
  lemma {:induction false} JoinEnds(parts: seq<string>, sep: string)
    requires parts != []
    ensures |Join(parts, sep)| >= |parts[0]| && |Join(parts, sep)| >= |parts[|parts| - 1]|
    ensures parts[0] <= Join(parts, sep)
    ensures Join(parts, sep)[|Join(parts, sep)| - |parts[|parts| - 1]|..] == parts[|parts| - 1]
    ensures |parts| > 1 ==> |Join(parts, sep)| >= |parts[0]| + |sep| &&
                            Join(parts, sep)[|parts[0]|..|parts[0]| + |sep|] == sep
  {
    if |parts| > 1 {
      JoinEnds(parts[1..], sep);
      var tail := Join(parts[1..], sep);
      var r := parts[0] + sep + tail;
      var last := parts[|parts| - 1];
      assert parts[1..][|parts[1..]| - 1] == last;
      assert r[|r| - |last|..] == tail[|tail| - |last|..];
    }
  }

  /** The text the middleware works on (the join with `'\n'`). It is empty
      when the message has no text part, and it trims to the empty string
      exactly when every text part is blank. */
  function ExtractText(content: seq<Part>): (text: string)
    ensures TextsOf(content) == [] ==> text == ""
    ensures Trim(text) == [] <==> Blank(content)
  {
    var text := Join(TextsOf(content), "\n");
    JoinAllSpace(TextsOf(content));
    text
  }

  /** The characters `String.prototype.trim` removes: ECMAScript's WhiteSpace
      and LineTerminator code points. */
  predicate IsJsSpace(c: char) {
    c == '\t' || c == '\n' || c == '\U{B}' || c == '\U{C}' || c == '\r' || c == ' ' ||
    c == '\U{A0}' || c == '\U{1680}' || ('\U{2000}' <= c <= '\U{200A}') ||
    c == '\U{2028}' || c == '\U{2029}' || c == '\U{202F}' || c == '\U{205F}' ||
    c == '\U{3000}' || c == '\U{FEFF}'
  }

  /** `s` without its leading space. */
  function TrimStart(s: string): (r: string) {
    if s != [] && IsJsSpace(s[0]) then TrimStart(s[1..]) else s
  }

  /** `s` without its trailing space. */
  function TrimEnd(s: string): (r: string) {
    if s != [] && IsJsSpace(s[|s| - 1]) then TrimEnd(s[..|s| - 1]) else s
  }

  /** `String.prototype.trim`: empty exactly when every character is space;
      otherwise it starts and ends with a character that is not space. */
  function Trim(s: string): (r: string)
    ensures r == [] <==> AllSpace(s)
    ensures r != [] ==> !IsJsSpace(r[0]) && !IsJsSpace(r[|r| - 1])
  {
    TrimStartSuffix(s);
    var t := TrimStart(s);
    TrimEndPrefix(t);
    if t == [] then
      assert s[..|s|] == s;
      TrimEnd(t)
    else
      assert !IsJsSpace(t[0]) && s[|s| - |t|] == t[0];
      TrimEnd(t)
  }

  /** Every text part of the message is blank (vacuously so when there is none). */
  predicate Blank(content: seq<Part>) {
    forall t :: t in TextsOf(content) ==> AllSpace(t)
  }

  /** Every character is one that `trim` removes. */
  predicate AllSpace(s: string) {
    forall i :: 0 <= i < |s| ==> IsJsSpace(s[i])
  }

  /** `TrimStart` removes a prefix of space and stops at the first other character. */
  lemma {:induction false} TrimStartSuffix(s: string)
    ensures |TrimStart(s)| <= |s| && TrimStart(s) == s[|s| - |TrimStart(s)|..]
    ensures AllSpace(s[..|s| - |TrimStart(s)|])
    ensures TrimStart(s) != [] ==> !IsJsSpace(TrimStart(s)[0])
  {
    if s != [] && IsJsSpace(s[0]) {
      TrimStartSuffix(s[1..]);
      var t := TrimStart(s[1..]);
      assert s[..|s| - |t|] == [s[0]] + s[1..][..|s| - 1 - |t|];
    }
  }

  /** `TrimEnd` keeps a prefix; it removes everything exactly when everything
      is space, and otherwise stops at a character that is not space. */
  lemma {:induction false} TrimEndPrefix(s: string)
    ensures |TrimEnd(s)| <= |s| && TrimEnd(s) == s[..|TrimEnd(s)|]
    ensures TrimEnd(s) == [] <==> AllSpace(s)
    ensures TrimEnd(s) != [] ==> !IsJsSpace(TrimEnd(s)[|TrimEnd(s)| - 1])
  {
    if s != [] && IsJsSpace(s[|s| - 1]) {
      TrimEndPrefix(s[..|s| - 1]);
      assert s[..|s| - 1][..|TrimEnd(s)|] == s[..|TrimEnd(s)|];
      assert AllSpace(s) <==> AllSpace(s[..|s| - 1]) by {
        if AllSpace(s[..|s| - 1]) {
          forall i | 0 <= i < |s| ensures IsJsSpace(s[i]) {
            if i < |s| - 1 { assert s[i] == s[..|s| - 1][i]; }
          }
        }
      }
    } else if s != [] {
      assert !IsJsSpace(s[|s| - 1]);
    }
  }

  /** The filter keeps list order: the texts of a concatenation are the texts
      of each half, concatenated. */
  lemma {:induction false} TextsOfAppend(a: seq<Part>, b: seq<Part>)
    ensures TextsOf(a + b) == TextsOf(a) + TextsOf(b)
  {
    if a == [] {
      assert a + b == b;
    } else {
      assert (a + b)[1..] == a[1..] + b;
      TextsOfAppend(a[1..], b);
    }
  }

  /** A text part contributes its text and any other part contributes nothing. */
  lemma SingleTexts(p: Part)
    ensures TextsOf([p]) == if p.TextPart? then [p.text] else []
  {
  }

  /** The joined text is blank exactly when every text part is blank (the
      newline separator is itself space). */
  lemma {:induction false} JoinAllSpace(parts: seq<string>)
    ensures AllSpace(Join(parts, "\n")) <==> forall k :: 0 <= k < |parts| ==> AllSpace(parts[k])
  {
    if |parts| > 1 {
      JoinAllSpace(parts[1..]);
      var tail := Join(parts[1..], "\n");
      var whole := parts[0] + "\n" + tail;
      assert whole[|parts[0]|] == '\n';
      assert AllSpace(whole) <==> AllSpace(parts[0]) && AllSpace(tail) by {
        if AllSpace(whole) {
          forall i | 0 <= i < |parts[0]| ensures IsJsSpace(parts[0][i]) {
            assert parts[0][i] == whole[i];
          }
          forall i | 0 <= i < |tail| ensures IsJsSpace(tail[i]) {
            assert tail[i] == whole[|parts[0]| + 1 + i];
          }
        }
        if AllSpace(parts[0]) && AllSpace(tail) {
          forall i | 0 <= i < |whole| ensures IsJsSpace(whole[i]) {
            if i < |parts[0]| { assert whole[i] == parts[0][i]; }
            else if i > |parts[0]| { assert whole[i] == tail[i - |parts[0]| - 1]; }
          }
        }
      }
      assert forall k :: 1 <= k < |parts| ==> parts[k] == parts[1..][k - 1];
    }
  }
}
