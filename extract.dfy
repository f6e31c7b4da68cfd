/** `extractJSON` of the trip service: the model's reply loses its markdown fences and its
    `//` line comments, and the span from the first `{` to the last `}` is handed to the JSON
    parser. The parser itself (`JSON.parse`) is a parameter: a partial function from text to a
    value. */
module Extract {
  import opened Wrappers
  import opened Json
  import opened Text

  // ---------------------------------------------------------------------------------------
  // Character filters used to state what the text repairs keep
  // ---------------------------------------------------------------------------------------

  /** `s` without the characters in `junk`, order kept. */
  function Drop(s: string, junk: set<char>): string
  {
    if |s| == 0 then "" else (if s[0] in junk then "" else [s[0]]) + Drop(s[1..], junk)
  }

  /** The line terminators of `s`, in order. */
  function LineBreaks(s: string): string
  {
    if |s| == 0 then "" else (if IsLineTerminator(s[0]) then [s[0]] else "") + LineBreaks(s[1..])
  }

  lemma {:induction false} DropAppend(a: string, b: string, junk: set<char>)
    ensures Drop(a + b, junk) == Drop(a, junk) + Drop(b, junk)
  {
    if |a| > 0 {
      assert (a + b)[1..] == a[1..] + b;
      DropAppend(a[1..], b, junk);
    } else {
      assert a + b == b;
    }
  }

  lemma {:induction false} LineBreaksAppend(a: string, b: string)
    ensures LineBreaks(a + b) == LineBreaks(a) + LineBreaks(b)
  {
    if |a| > 0 {
      assert (a + b)[1..] == a[1..] + b;
      LineBreaksAppend(a[1..], b);
    } else {
      assert a + b == b;
    }
  }

  // ---------------------------------------------------------------------------------------
  // text.replace(/```json\n?|\n?```/g, "")
  // ---------------------------------------------------------------------------------------

  /** The characters a fence marker is made of. */
  const FenceChars: set<char> := {'`', 'j', 's', 'o', 'n', '\n'}

  /** Removes, scanning left to right, every "```json" (with the newline after it, if any) and
      every "```" (with the newline before it, if any); at each position the first alternative
      is tried first, as the regular expression does. */
  function StripFences(s: string): (r: string)
    ensures |r| <= |s|
  {
    if |s| == 0 then ""
    else if "```json\n" <= s then StripFences(s[8..])
    else if "```json" <= s then StripFences(s[7..])
    else if "\n```" <= s then StripFences(s[4..])
    else if "```" <= s then StripFences(s[3..])
    else [s[0]] + StripFences(s[1..])
  }

  /** Removing a prefix made only of junk leaves the filtered text unchanged. */
  lemma DropJunkPrefix(s: string, k: nat, junk: set<char>)
    requires k <= |s|
    requires forall i :: 0 <= i < k ==> s[i] in junk
    ensures Drop(s, junk) == Drop(s[k..], junk)
  {
    assert s == s[..k] + s[k..];
    DropAppend(s[..k], s[k..], junk);
    DropAllJunk(s[..k], junk);
  }

  lemma {:induction false} DropAllJunk(s: string, junk: set<char>)
    requires forall i :: 0 <= i < |s| ==> s[i] in junk
    ensures Drop(s, junk) == ""
  {
    if |s| > 0 {
      DropAllJunk(s[1..], junk);
    }
  }

  /** Fence removal deletes only fence characters: every other character of the reply,
      braces included, survives in its original order. */
  lemma {:induction false} StripFencesKeepsContent(s: string)
    ensures Drop(StripFences(s), FenceChars) == Drop(s, FenceChars)
  {
    if |s| == 0 {
    } else if "```json\n" <= s {
      DropJunkPrefix(s, 8, FenceChars);
      StripFencesKeepsContent(s[8..]);
    } else if "```json" <= s {
      DropJunkPrefix(s, 7, FenceChars);
      StripFencesKeepsContent(s[7..]);
    } else if "\n```" <= s {
      DropJunkPrefix(s, 4, FenceChars);
      StripFencesKeepsContent(s[4..]);
    } else if "```" <= s {
      DropJunkPrefix(s, 3, FenceChars);
      StripFencesKeepsContent(s[3..]);
    } else {
      StripFencesKeepsContent(s[1..]);
      DropAppend([s[0]], StripFences(s[1..]), FenceChars);
    }
  }

  /** A reply without backticks has no fence to remove. */
  lemma {:induction false} StripFencesNoBacktick(s: string)
    requires forall i :: 0 <= i < |s| ==> s[i] != '`'
    ensures StripFences(s) == s
  {
    if |s| > 0 {
      assert s[0] != '`' && (|s| > 1 ==> s[1] != '`');
      StripFencesNoBacktick(s[1..]);
    }
  }

  lemma AppendAssoc<T>(a: seq<T>, b: seq<T>, c: seq<T>)
    ensures a + (b + c) == (a + b) + c
  {
  }

  /** A text that starts neither with a backtick nor with a newline followed by a backtick
      keeps its first character. */
  lemma NoFenceAtStart(s: string)
    requires |s| > 0 && s[0] != '`'
    requires s[0] == '\n' ==> |s| > 1 && s[1] != '`'
    ensures StripFences(s) == [s[0]] + StripFences(s[1..])
  {
    assert !("```json\n" <= s) && !("```json" <= s) && !("```" <= s);
    if s[0] == '\n' {
      assert s[1] != '`';
    }
  }

  /** Text with no backtick and not ending in a newline passes through fence removal as it is,
      whatever follows it. */
  lemma {:induction false} StripFencesAppend(p: string, q: string)
    requires forall i :: 0 <= i < |p| ==> p[i] != '`'
    requires |p| > 0 ==> p[|p| - 1] != '\n'
    ensures StripFences(p + q) == p + StripFences(q)
  {
    if |p| > 0 {
      var s := p + q;
      var rest := p[1..];
      assert StripFences(s) == [p[0]] + StripFences(rest + q) by {
        assert s[0] == p[0];
        assert |p| > 1 ==> s[1] == p[1];
        NoFenceAtStart(s);
        assert s[1..] == rest + q;
      }
      var tail := StripFences(q);
      assert StripFences(rest + q) == rest + tail by {
        assert forall i :: 0 <= i < |rest| ==> rest[i] == p[i + 1];
        StripFencesAppend(rest, q);
      }
      assert [p[0]] + rest == p;
      AppendAssoc([p[0]], rest, tail);
    } else {
      assert p + q == q;
    }
  }

  // ---------------------------------------------------------------------------------------
  // text.replace(/\/\/.*$/gm, "")
  // ---------------------------------------------------------------------------------------

  /** Line terminators of JavaScript regular expressions: `.` does not match them and `$` in
      multi-line mode matches just before them. */
  predicate IsLineTerminator(c: char)
  {
    c == '\n' || c == '\r' || c == '\U{2028}' || c == '\U{2029}'
  }

  /** Position of the first line terminator of `s`, or |s| when there is none. */
  function LineEnd(s: string): (r: nat)
    ensures r <= |s|
    ensures forall i :: 0 <= i < r ==> !IsLineTerminator(s[i])
    ensures r < |s| ==> IsLineTerminator(s[r])
  {
    if |s| == 0 || IsLineTerminator(s[0]) then 0 else 1 + LineEnd(s[1..])
  }

  /** Removes every `//` and the rest of its line, the line terminator excepted. */
  function StripLineComments(s: string): (r: string)
    ensures |r| <= |s|
  {
    if |s| == 0 then ""
    else if "//" <= s then
      var e := LineEnd(s);
      assert e >= 2;
      StripLineComments(s[e..])
    else [s[0]] + StripLineComments(s[1..])
  }

  /** `s` holds no "//". */
  predicate NoDoubleSlash(s: string)
  {
    forall i :: 0 <= i < |s| - 1 ==> !(s[i] == '/' && s[i + 1] == '/')
  }

  /** Where no comment starts, the first character is kept. */
  lemma StripLineCommentsHead(s: string)
    requires |s| > 0 && !("//" <= s)
    ensures |StripLineComments(s)| > 0 && StripLineComments(s)[0] == s[0]
  {
  }

  /** Text with no "//" and not ending in "/" passes through comment removal as it is,
      whatever follows it. */
  lemma {:induction false} StripLineCommentsAppend(p: string, q: string)
    requires NoDoubleSlash(p)
    requires |p| > 0 ==> p[|p| - 1] != '/'
    ensures StripLineComments(p + q) == p + StripLineComments(q)
  {
    if |p| > 0 {
      var s := p + q;
      if |p| > 1 {
        assert !(p[0] == '/' && p[1] == '/');
        assert s[0] == p[0] && s[1] == p[1];
      } else {
        assert s[0] != '/';
      }
      assert !("//" <= s);
      assert s[1..] == p[1..] + q;
      StripLineCommentsAppend(p[1..], q);
    } else {
      assert p + q == q;
    }
  }

  /** After the pass no "//" is left: a removed comment is followed by a line terminator or by
      the end of the text, and a kept "/" is never followed by another "/". */
  lemma {:induction false} StripLineCommentsLeavesNoComment(s: string)
    ensures NoDoubleSlash(StripLineComments(s))
  {
    if |s| == 0 {
    } else if "//" <= s {
      StripLineCommentsLeavesNoComment(s[LineEnd(s)..]);
    } else {
      var rest := StripLineComments(s[1..]);
      StripLineCommentsLeavesNoComment(s[1..]);
      if s[0] == '/' && |s| > 1 {
        assert s[1] != '/';
        StripLineCommentsHead(s[1..]);
      }
      assert StripLineComments(s) == [s[0]] + rest;
    }
  }

  /** Text without "//" is left as it is. */
  lemma {:induction false} StripLineCommentsIdentity(s: string)
    requires NoDoubleSlash(s)
    ensures StripLineComments(s) == s
  {
    if |s| > 0 {
      if |s| > 1 {
        assert !(s[0] == '/' && s[1] == '/');
      }
      StripLineCommentsIdentity(s[1..]);
    }
  }

  /** Removing the comments twice is removing them once. */
  lemma StripLineCommentsIdempotent(s: string)
    ensures StripLineComments(StripLineComments(s)) == StripLineComments(s)
  {
    StripLineCommentsLeavesNoComment(s);
    StripLineCommentsIdentity(StripLineComments(s));
  }

  /** A comment never swallows a line break: the line structure of the reply is kept. */
  lemma {:induction false} StripLineCommentsKeepsLines(s: string)
    ensures LineBreaks(StripLineComments(s)) == LineBreaks(s)
  {
    if |s| == 0 {
    } else if "//" <= s {
      var e := LineEnd(s);
      assert s == s[..e] + s[e..];
      LineBreaksAppend(s[..e], s[e..]);
      LineBreaksNone(s[..e]);
      StripLineCommentsKeepsLines(s[e..]);
    } else {
      StripLineCommentsKeepsLines(s[1..]);
      LineBreaksAppend([s[0]], StripLineComments(s[1..]));
    }
  }

  lemma {:induction false} LineBreaksNone(s: string)
    requires forall i :: 0 <= i < |s| ==> !IsLineTerminator(s[i])
    ensures LineBreaks(s) == ""
  {
    if |s| > 0 {
      LineBreaksNone(s[1..]);
    }
  }

  // ---------------------------------------------------------------------------------------
  // The candidate span and the parse
  // ---------------------------------------------------------------------------------------

  /** The reply after both text repairs. */
  function Cleaned(text: string): string
  {
    StripLineComments(StripFences(text))
  }

  /** `i` is the first `{` of `c` and `j` the last `}`. */
  predicate BraceSpan(c: string, i: int, j: int)
  {
    0 <= i < |c| && 0 <= j < |c| && c[i] == '{' && '{' !in c[..i] && c[j] == '}' && '}' !in c[j + 1..]
  }

  /** The text `JSON.parse` receives: None when the cleaned reply lacks a `{` or a `}` (the
      "Invalid JSON from model" error), otherwise `slice(first {, last } + 1)`, which is empty
      when the last `}` comes before the first `{`. */
  function Candidate(text: string): (r: Option<string>)
    ensures r.None? <==> '{' !in Cleaned(text) || '}' !in Cleaned(text)
    ensures r.Some? ==> exists i, j :: BraceSpan(Cleaned(text), i, j) &&
                          r.value == (if i <= j then Cleaned(text)[i..j + 1] else "")
  {
    var c := Cleaned(text);
    var start := IndexOf(c, '{');
    var end := LastIndexOf(c, '}');
    if start == -1 || end == -1 then None
    else
      assert BraceSpan(c, start, end);
      Some(if start <= end then c[start..end + 1] else "")
  }

  /** A non-empty candidate is delimited by braces. */
  lemma CandidateIsBraced(text: string)
    requires Candidate(text).Some? && Candidate(text).value != ""
    ensures Candidate(text).value[0] == '{'
    ensures Candidate(text).value[|Candidate(text).value| - 1] == '}'
  {
  }

  /** `extractJSON`: None when the reply has no brace span or `JSON.parse` rejects the span
      (an empty span is always rejected). */
  function ExtractJSON(text: string, parse: string -> Option<Json>): (r: Option<Json>)
    ensures r.Some? ==> Candidate(text).Some? && Candidate(text).value != ""
    ensures r.Some? ==> r == parse(Candidate(text).value)
    ensures Candidate(text).Some? && Candidate(text).value != "" ==> r == parse(Candidate(text).value)
  {
    match Candidate(text)
    case None => None
    case Some(c) => if c == "" then None else parse(c)
  }

  // ---------------------------------------------------------------------------------------
  // Replies as the model writes them
  // ---------------------------------------------------------------------------------------

  /** In `pre + body + post`, a braced `body` with no `{` before it and no `}` after it is exactly
      the span from the first `{` to the last `}`. */
  lemma BracesOfWrapped(pre: string, body: string, post: string)
    requires |body| >= 2 && body[0] == '{' && body[|body| - 1] == '}'
    requires forall i :: 0 <= i < |pre| ==> pre[i] != '{'
    requires forall i :: 0 <= i < |post| ==> post[i] != '}'
    ensures IndexOf(pre + body + post, '{') == |pre|
    ensures LastIndexOf(pre + body + post, '}') == |pre| + |body| - 1
    ensures (pre + body + post)[|pre|..|pre| + |body|] == body
  {
    var c := pre + body + post;
    assert c[|pre|] == '{';
    assert c[|pre| + |body| - 1] == '}';
  }

  /** Leading and trailing prose around the object is cut off: the candidate is the object. */
  lemma ProseAroundReplyIsCut(pre: string, body: string, post: string)
    requires Cleaned(pre + body + post) == pre + body + post
    requires |body| >= 2 && body[0] == '{' && body[|body| - 1] == '}'
    requires forall i :: 0 <= i < |pre| ==> pre[i] != '{'
    requires forall i :: 0 <= i < |post| ==> post[i] != '}'
    ensures Candidate(pre + body + post) == Some(body)
  {
    BracesOfWrapped(pre, body, post);
  }

  /** A braced object with no backtick and no "//" wrapped in a ```json fence yields exactly
      that object. */
  lemma FencedReplyYieldsObject(body: string)
    requires |body| >= 2 && body[0] == '{' && body[|body| - 1] == '}'
    requires forall i :: 0 <= i < |body| ==> body[i] != '`'
    requires NoDoubleSlash(body)
    ensures Candidate("```json\n" + body + "\n```") == Some(body)
  {
    var text := "```json\n" + body + "\n```";
    assert "```json\n" <= text;
    assert text[8..] == body + "\n```";
    StripFencesAppend(body, "\n```");
    assert StripFences("\n```") == "";
    assert body + "" == body;
    StripLineCommentsIdentity(body);
    assert Cleaned(text) == body;
    CandidateOfBraced(text, body);
  }

  /** A reply that cleans up to a braced text yields exactly that text. */
  lemma CandidateOfBraced(text: string, body: string)
    requires Cleaned(text) == body
    requires |body| >= 2 && body[0] == '{' && body[|body| - 1] == '}'
    ensures Candidate(text) == Some(body)
  {
    BracesOfWrapped("", body, "");
    assert "" + body + "" == body;
  }

  /** A comment that no line terminator closes runs to the end of the text. */
  lemma CommentToEnd(q: string)
    requires forall i :: 0 <= i < |q| ==> !IsLineTerminator(q[i])
    ensures StripLineComments("//" + q) == ""
  {
    var t := "//" + q;
    assert LineEnd(t) == |t| by {
      assert t[1..][1..] == q;
      assert LineEnd(q) == |q|;
    }
    assert "//" <= t;
    assert t[|t|..] == "";
  }

  /** Everything from a `//` on the last line of a reply to its end is removed. */
  lemma CommentOnLastLine(p: string, q: string)
    requires forall i :: 0 <= i < |p| ==> p[i] != '`'
    requires forall i :: 0 <= i < |q| ==> q[i] != '`' && !IsLineTerminator(q[i])
    requires NoDoubleSlash(p) && (|p| > 0 ==> p[|p| - 1] != '/')
    ensures Cleaned(p + "//" + q) == p
  {
    var t := "//" + q;
    var c := p + t;
    assert p + "//" + q == c;
    forall i | 0 <= i < |c|
      ensures c[i] != '`'
    {
      if i < |p| {
        assert c[i] == p[i];
      } else if i >= |p| + 2 {
        assert c[i] == q[i - |p| - 2];
      }
    }
    StripFencesNoBacktick(c);
    assert StripFences(c) == c;
    StripLineCommentsAppend(p, t);
    CommentToEnd(q);
    assert p + "" == p;
    assert StripLineComments(StripFences(c)) == p;
  }

  /** A `//` inside a JSON string is taken for a comment too: when the reply's last line holds
      a `//` (a URL in a string value, say) and no `}` comes before it, the closing brace is cut
      away and the reply is rejected, however well-formed the JSON was. */
  lemma CommentCutsClosingBrace(p: string, q: string)
    requires forall i :: 0 <= i < |p| ==> p[i] != '`' && p[i] != '}'
    requires forall i :: 0 <= i < |q| ==> q[i] != '`' && !IsLineTerminator(q[i])
    requires NoDoubleSlash(p) && (|p| > 0 ==> p[|p| - 1] != '/')
    ensures Candidate(p + "//" + q) == None
  {
    CommentOnLastLine(p, q);
  }

  /** The reply `{"u": "http://x"}` is rejected. */
  lemma UrlInReplyIsRejected()
    ensures Candidate("{\"u\": \"http:" + "//" + "x\"}") == None
  {
    CommentCutsClosingBrace("{\"u\": \"http:", "x\"}");
  }
}
