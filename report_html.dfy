/**
 * The stand-alone HTML report the front end builds around an analysis report written in
 * Markdown: the Markdown is escaped into a hidden "raw-markdown" element, from which the page's
 * onload script reads it back as text and renders it.
 */
module ReportHtml {
  import opened JavaText

  // ---------------------------------------------------------------- escaping

  /** String.replace with a global one-character pattern: every `c`, left to right, becomes `rep`. */
  function ReplaceChar(s: string, c: char, rep: string): (r: string)
    ensures c !in s ==> r == s
    ensures c !in rep ==> c !in r
    decreases |s|
  {
    if |s| == 0 then ""
    else (if s[0] == c then rep else [s[0]]) + ReplaceChar(s[1..], c, rep)
  }

  lemma {:induction false} ReplaceAppend(a: string, b: string, c: char, rep: string)
    ensures ReplaceChar(a + b, c, rep) == ReplaceChar(a, c, rep) + ReplaceChar(b, c, rep)
    decreases |a|
  {
    if |a| == 0 {
      assert a + b == b;
    } else {
      assert (a + b)[0] == a[0] && (a + b)[1..] == a[1..] + b;
      ReplaceAppend(a[1..], b, c, rep);
    }
  }

  /** escapeForHtml: "&" first, then "<", ">" and the double quote. */
  function EscapeForHtml(text: string): string
  {
    ReplaceChar(ReplaceChar(ReplaceChar(ReplaceChar(text, '&', "&amp;"), '<', "&lt;"), '>', "&gt;"), '"', "&quot;")
  }

  /** The entity for one character, as a single-pass escaper would write it. */
  function EscapeChar(c: char): (r: string)
    ensures '<' !in r && '>' !in r && '"' !in r
    ensures |r| > 0 && (c != '&' && c != '<' && c != '>' && c != '"' <==> r == [c])
  {
    match c
    case '&' => "&amp;"
    case '<' => "&lt;"
    case '>' => "&gt;"
    case '"' => "&quot;"
    case _ => [c]
  }

  /** A single-pass escaper: each character replaced by its entity. */
  function EscapeEach(s: string): (r: string)
    ensures forall i :: 0 <= i < |r| ==> r[i] != '<' && r[i] != '>' && r[i] != '"'
    decreases |s|
  {
    if |s| == 0 then "" else EscapeChar(s[0]) + EscapeEach(s[1..])
  }

  /** The four chained replaces escape a concatenation piecewise. */
  lemma EscapeAppend(a: string, b: string)
    ensures EscapeForHtml(a + b) == EscapeForHtml(a) + EscapeForHtml(b)
  {
    var s1a, s1b := ReplaceChar(a, '&', "&amp;"), ReplaceChar(b, '&', "&amp;");
    ReplaceAppend(a, b, '&', "&amp;");
    var s2a, s2b := ReplaceChar(s1a, '<', "&lt;"), ReplaceChar(s1b, '<', "&lt;");
    ReplaceAppend(s1a, s1b, '<', "&lt;");
    var s3a, s3b := ReplaceChar(s2a, '>', "&gt;"), ReplaceChar(s2b, '>', "&gt;");
    ReplaceAppend(s2a, s2b, '>', "&gt;");
    ReplaceAppend(s3a, s3b, '"', "&quot;");
  }

  /** One character goes through the chain to its entity: the entities added by a later replace hold no character an earlier one looks for. */
  lemma EscapeOne(c: char)
    ensures EscapeForHtml([c]) == EscapeChar(c)
  {
    ReplaceOne(c, '&', "&amp;");
    if c != '&' {
      ReplaceOne(c, '<', "&lt;");
      if c != '<' {
        ReplaceOne(c, '>', "&gt;");
        if c != '>' {
          ReplaceOne(c, '"', "&quot;");
        }
      }
    }
  }

  lemma ReplaceOne(c: char, d: char, rep: string)
    ensures ReplaceChar([c], d, rep) == if c == d then rep else [c]
  {
    assert [c][1..] == [];
  }

  /** Replacing "&" first makes the chain a single-pass escaper: no entity is escaped twice. */
  lemma {:induction false} ChainIsSinglePass(s: string)
    ensures EscapeForHtml(s) == EscapeEach(s)
    decreases |s|
  {
    if |s| > 0 {
      assert s == [s[0]] + s[1..];
      EscapeAppend([s[0]], s[1..]);
      EscapeOne(s[0]);
      ChainIsSinglePass(s[1..]);
    }
  }

  /** The escaped text holds no raw "<", ">" or double quote, so it can neither open nor close an element or an attribute. */
  lemma NoRawMarkup(s: string)
    ensures forall i :: 0 <= i < |EscapeForHtml(s)| ==>
              EscapeForHtml(s)[i] != '<' && EscapeForHtml(s)[i] != '>' && EscapeForHtml(s)[i] != '"'
  {
    ChainIsSinglePass(s);
  }

  lemma ReplaceSingle(c: char, rep: string)
    ensures ReplaceChar([c], c, rep) == rep
  {
    assert ReplaceChar([c], c, rep) == rep + ReplaceChar([], c, rep);
  }

  /** An example: had "<" been replaced before "&", the "&" of its entity would be escaped again. */
  lemma AmpersandFirstMatters()
    ensures ReplaceChar(ReplaceChar("<", '<', "&lt;"), '&', "&amp;") == "&amp;lt;"
  {
    ReplaceSingle('<', "&lt;");
    ReplaceSingle('&', "&amp;");
    ReplaceAppend("&", "lt;", '&', "&amp;");
    assert "&" + "lt;" == "&lt;";
    assert "&amp;" + "lt;" == "&amp;lt;";
  }

  // ---------------------------------------------------------------- reading back

  /** How the browser reads the element's text back: the four entities decoded, left to right. */
  function Unescape(s: string): (r: string)
    ensures |r| <= |s|
    decreases |s|
  {
    if |s| == 0 then ""
    else if StartsWith(s, "&amp;") then "&" + Unescape(s[5..])
    else if StartsWith(s, "&lt;") then "<" + Unescape(s[4..])
    else if StartsWith(s, "&gt;") then ">" + Unescape(s[4..])
    else if StartsWith(s, "&quot;") then "\"" + Unescape(s[6..])
    else [s[0]] + Unescape(s[1..])
  }

  /** A text that starts with an entity has the entity's second character second. */
  lemma EntitySecond(s: string, e: string)
    ensures StartsWith(s, e) && 1 < |e| ==> s[1] == e[1]
  {
    if StartsWith(s, e) && 1 < |e| {
      assert s[1] == s[..|e|][1];
    }
  }

  lemma NoEntity(s: string)
    requires 0 < |s| && s[0] != '&'
    ensures Unescape(s) == [s[0]] + Unescape(s[1..])
  {
    assert !StartsWith(s, "&amp;") && !StartsWith(s, "&lt;") && !StartsWith(s, "&gt;") && !StartsWith(s, "&quot;") by {
      assert forall p: string :: 0 < |p| && p[0] == '&' && StartsWith(s, p) ==> s[0] == s[..|p|][0];
    }
  }

  lemma UnescapeEntity(c: char, x: string)
    ensures Unescape(EscapeChar(c) + x) == [c] + Unescape(x)
  {
    var e := EscapeChar(c);
    var s := e + x;
    assert s[..|e|] == e && s[|e|..] == x;
    if c == '&' {
      assert StartsWith(s, "&amp;");
    } else if c == '<' {
      EntitySecond(s, "&amp;");
      assert StartsWith(s, "&lt;");
    } else if c == '>' {
      EntitySecond(s, "&amp;");
      EntitySecond(s, "&lt;");
      assert StartsWith(s, "&gt;");
    } else if c == '"' {
      EntitySecond(s, "&amp;");
      EntitySecond(s, "&lt;");
      EntitySecond(s, "&gt;");
      assert StartsWith(s, "&quot;");
    } else {
      assert s[0] == c && s[1..] == x;
      NoEntity(s);
    }
  }

  /** Decoding the four entities recovers the escaped text exactly. */
  lemma {:induction false} UnescapeEscape(s: string)
    ensures Unescape(EscapeForHtml(s)) == s
  {
    ChainIsSinglePass(s);
    UnescapeEach(s);
  }

  lemma {:induction false} UnescapeEach(s: string)
    ensures Unescape(EscapeEach(s)) == s
    decreases |s|
  {
    if |s| > 0 {
      UnescapeEntity(s[0], EscapeEach(s[1..]));
      UnescapeEach(s[1..]);
      assert s == [s[0]] + s[1..];
    }
  }

  // ---------------------------------------------------------------- the page

  const MARKED_URL := "https://mirrors.sustech.edu.cn/cdnjs/ajax/libs/marked/12.0.0/marked.min.js"
  const ECHARTS_URL := "https://mirrors.sustech.edu.cn/cdnjs/ajax/libs/echarts/5.5.0/echarts.min.js"

  /** The element the Markdown is hidden in, and its end tag. */
  const RAW_OPEN := "<div id=\"raw-markdown\" style=\"display:none;\">"
  const RAW_CLOSE := "</div>"

  /** The document up to the hidden element: head, script tags for the two libraries, style sheet, and the container. */
  const PAGE_HEAD := "<!DOCTYPE html>\n<html lang=\"zh-CN\">\n<head>\n<meta charset=\"UTF-8\">\n"
    + "<meta name=\"viewport\" content=\"width=device-width, initial-scale=1.0\">\n<title>分析报告</title>\n"
    + "<script src=\"" + MARKED_URL + "\"></script>\n<script src=\"" + ECHARTS_URL + "\"></script>\n"
    + STYLE_SHEET + "</head>\n<body>\n<div class=\"container\">\n"

  const STYLE_SHEET := @"<style>
* { box-sizing: border-box; }
body { margin: 0; padding: 20px; background-color: #f3f4f6; font-family: -apple-system, BlinkMacSystemFont, ""Segoe UI"", Roboto, ""Helvetica Neue"", Arial, sans-serif; color: #374151; line-height: 1.6; }
.container { max-width: 900px; margin: 0 auto; background-color: #ffffff; padding: 40px; border-radius: 12px; box-shadow: 0 4px 6px -1px rgba(0, 0, 0, 0.1), 0 2px 4px -1px rgba(0, 0, 0, 0.06); }
h1 { font-size: 2.25rem; font-weight: 800; color: #1e3a8a; margin-top: 0; margin-bottom: 1.5rem; border-bottom: 2px solid #e5e7eb; padding-bottom: 0.5rem; }
h2 { font-size: 1.5rem; font-weight: 700; color: #2563eb; margin-top: 2.5rem; margin-bottom: 1rem; border-left: 5px solid #2563eb; padding-left: 12px; }
h3 { font-size: 1.25rem; font-weight: 600; color: #1f2937; margin-top: 1.5rem; margin-bottom: 0.75rem; }
p { margin-bottom: 1rem; }
ul, ol { margin-bottom: 1rem; padding-left: 1.5rem; }
li { margin-bottom: 0.25rem; }
code { background-color: #f1f5f9; padding: 0.2rem 0.4rem; border-radius: 0.25rem; font-size: 0.875em; color: #d946ef; font-family: monospace; }
pre { background: #1e293b; color: #f8fafc; padding: 1rem; border-radius: 0.5rem; overflow-x: auto; }
pre code { background: transparent; color: inherit; padding: 0; }
.chart-box { width: 100%; height: 450px; margin: 30px 0; border: 1px solid #e2e8f0; border-radius: 8px; background-color: #fff; box-shadow: 0 1px 3px rgba(0,0,0,0.1); }
.chart-error { display: flex; align-items: center; justify-content: center; height: 100%; color: #ef4444; background-color: #fef2f2; border: 1px dashed #ef4444; border-radius: 8px; }
</style>
"

  /** The document after the hidden element: the render target and the onload script (kept as its text, see below). */
  const PAGE_TAIL := "\n<div id=\"render-target\" class=\"markdown-body\"></div>\n</div>\n<script>\n" + ONLOAD_SCRIPT + "</script>\n</body>\n</html>"

  /** The onload script's text; the model does not interpret it beyond the reading-back step modelled by RawMarkdownText. */
  const ONLOAD_SCRIPT := @"window.onload = function() {
  if (typeof marked === 'undefined') {
    document.getElementById('render-target').innerHTML = '<p style=""color:red;"">Marked库加载失败，请检查网络</p>';
    return;
  }
  var rawDiv = document.getElementById('raw-markdown');
  if (!rawDiv) return;
  var rawText = rawDiv.innerText;
  var renderer = new marked.Renderer();
  renderer.code = function(code, language) {
    if (language === 'echarts' || language === 'json') {
      var id = 'chart_' + Math.random().toString(36).substr(2, 9);
      return '<div id=""' + id + '"" class=""chart-box"" data-option=""' + encodeURIComponent(code) + '""></div>';
    }
    return '<pre><code class=""language-' + language + '"">' + code.replace(/</g, '&lt;').replace(/>/g, '&gt;') + '</code></pre>';
  };
  document.getElementById('render-target').innerHTML = marked.parse(rawText, { renderer: renderer });
  if (typeof echarts !== 'undefined') {
    document.querySelectorAll('.chart-box').forEach(function(box) {
      try {
        var code = decodeURIComponent(box.getAttribute('data-option'));
        var option = new Function('return ' + code)();
        var myChart = echarts.init(box);
        myChart.setOption(option);
        window.addEventListener('resize', function() { myChart.resize(); });
      } catch(e) {
        box.innerHTML = '<div class=""chart-error""><b>图表渲染错误</b><br/>' + e.message + '</div>';
      }
    });
  }
};
"

  /** The fixed document text before and after the hidden element. */
  datatype PageFrame = PageFrame(head: string, tail: string)

  const REPORT_FRAME := PageFrame(PAGE_HEAD, PAGE_TAIL)

  /** The template literal with `frame` around the hidden element holding the escaped Markdown. */
  function RenderPage(frame: PageFrame, markdownContent: string): string
  {
    frame.head + RAW_OPEN + EscapeForHtml(markdownContent) + RAW_CLOSE + frame.tail
  }

  /** buildReportHtml */
  function BuildReportHtml(markdownContent: string): string
  {
    RenderPage(REPORT_FRAME, markdownContent)
  }

  /** The text up to the first "<": the character data of an element whose content is text only. */
  function TextBeforeTag(s: string): (r: string)
    ensures |r| <= |s| && r == s[..|r|]
    ensures forall i :: 0 <= i < |r| ==> r[i] != '<'
    ensures |r| < |s| ==> s[|r|] == '<'
    decreases |s|
  {
    if |s| == 0 || s[0] == '<' then "" else [s[0]] + TextBeforeTag(s[1..])
  }

  // ---------------------------------------------------------------- what the HTML parser keeps

  /** Input preprocessing: a CR LF pair and a lone CR each become one LF. */
  function NormalizeNewlines(s: string): string
    decreases |s|
  {
    if |s| == 0 then ""
    else if s[0] == '\r' && |s| > 1 && s[1] == '\n' then "\n" + NormalizeNewlines(s[2..])
    else if s[0] == '\r' then "\n" + NormalizeNewlines(s[1..])
    else [s[0]] + NormalizeNewlines(s[1..])
  }

  /** After preprocessing no CR is left. */
  lemma {:induction false} NormalizeLeavesNoCr(s: string)
    ensures '\r' !in NormalizeNewlines(s)
    decreases |s|
  {
    if |s| == 0 {
    } else if s[0] == '\r' && |s| > 1 && s[1] == '\n' {
      NormalizeLeavesNoCr(s[2..]);
    } else if s[0] == '\r' {
      NormalizeLeavesNoCr(s[1..]);
    } else {
      NormalizeLeavesNoCr(s[1..]);
    }
  }

  /** A text without CR passes preprocessing unchanged. */
  lemma {:induction false} NormalizeWithoutCr(s: string)
    requires '\r' !in s
    ensures NormalizeNewlines(s) == s
    decreases |s|
  {
    if |s| > 0 {
      assert s[0] in s;
      assert forall c :: c in s[1..] ==> c in s;
      NormalizeWithoutCr(s[1..]);
      assert s == [s[0]] + s[1..];
    }
  }

  /** Tree construction: a NUL character token in element content is ignored. */
  function DropNul(s: string): string
    decreases |s|
  {
    if |s| == 0 then ""
    else if s[0] == '\0' then DropNul(s[1..])
    else [s[0]] + DropNul(s[1..])
  }

  /** Every character but NUL is kept, and no NUL is. */
  lemma {:induction false} DropNulKeeps(s: string, c: char)
    ensures c in DropNul(s) <==> c != '\0' && c in s
    decreases |s|
  {
    if |s| > 0 {
      DropNulKeeps(s[1..], c);
      assert s == [s[0]] + s[1..];
    }
  }

  /** A text without NUL is kept as it is. */
  lemma {:induction false} DropNulWithoutNul(s: string)
    requires '\0' !in s
    ensures DropNul(s) == s
    decreases |s|
  {
    if |s| > 0 {
      assert s[0] in s;
      assert forall c :: c in s[1..] ==> c in s;
      DropNulWithoutNul(s[1..]);
      assert s == [s[0]] + s[1..];
    }
  }

  /** What the parser keeps of a text written as character data. */
  function ParsedText(s: string): (r: string)
    ensures '\r' !in r && '\0' !in r
  {
    NormalizeLeavesNoCr(s);
    DropNulKeeps(NormalizeNewlines(s), '\r');
    DropNulKeeps(NormalizeNewlines(s), '\0');
    DropNul(NormalizeNewlines(s))
  }

  /** A text without CR and NUL is kept as it is. */
  lemma ParsedTextPlain(s: string)
    requires '\r' !in s && '\0' !in s
    ensures ParsedText(s) == s
  {
    NormalizeWithoutCr(s);
    DropNulWithoutNul(s);
  }

  /**
   * What the onload script's rawDiv.innerText yields from a page of this shape: the character
   * data after the hidden element's start tag, up to the next tag, with newlines normalised
   * while the page is read, entities decoded by the tokenizer and NUL characters dropped when
   * the text is inserted.
   */
  function RawMarkdownText(frame: PageFrame, page: string): string
  {
    var start := |frame.head + RAW_OPEN|;
    if |page| < start then "" else DropNul(Unescape(NormalizeNewlines(TextBeforeTag(page[start..]))))
  }

  lemma EscapeCons(c: char, x: string)
    ensures EscapeEach([c] + x) == EscapeChar(c) + EscapeEach(x)
  {
    assert ([c] + x)[0] == c && ([c] + x)[1..] == x;
  }

  lemma EscapeFirst(s: string)
    requires |s| > 0
    ensures EscapeEach(s) == EscapeChar(s[0]) + EscapeEach(s[1..])
  {
  }

  /** A CR, an LF or any other character without an entity escapes to itself. */
  lemma EscapeCharPlain(c: char)
    requires c != '&' && c != '<' && c != '>' && c != '"'
    ensures EscapeChar(c) == [c]
  {
  }

  /** No entity holds a CR, so a character other than CR escapes to text without one. */
  lemma EscapeCharNoCr(c: char)
    requires c != '\r'
    ensures forall i :: 0 <= i < |EscapeChar(c)| ==> EscapeChar(c)[i] != '\r'
  {
  }

  lemma NormalizeCrLf(x: string)
    ensures NormalizeNewlines(['\r', '\n'] + x) == "\n" + NormalizeNewlines(x)
  {
    var t := ['\r', '\n'] + x;
    assert t[0] == '\r' && t[1] == '\n' && t[2..] == x;
  }

  lemma NormalizeCr(x: string)
    requires |x| == 0 || x[0] != '\n'
    ensures NormalizeNewlines(['\r'] + x) == "\n" + NormalizeNewlines(x)
  {
    var t := ['\r'] + x;
    assert t[0] == '\r' && t[1..] == x;
  }

  /** A prefix without CR is kept in front of whatever follows. */
  lemma {:induction false} NormalizePrefix(p: string, x: string)
    requires forall i :: 0 <= i < |p| ==> p[i] != '\r'
    ensures NormalizeNewlines(p + x) == p + NormalizeNewlines(x)
    decreases |p|
  {
    if |p| == 0 {
      assert p + x == x;
    } else {
      assert (p + x)[0] == p[0] && (p + x)[1..] == p[1..] + x;
      NormalizePrefix(p[1..], x);
      assert p == [p[0]] + p[1..];
    }
  }

  /** Escaping touches no CR and no LF, so it commutes with newline normalisation. */
  lemma {:induction false} NormalizeEscape(s: string)
    ensures NormalizeNewlines(EscapeEach(s)) == EscapeEach(NormalizeNewlines(s))
    decreases |s|
  {
    if |s| == 0 {
    } else if s[0] == '\r' && |s| > 1 && s[1] == '\n' {
      NormalizeEscape(s[2..]);
      NormalizeEscapeCrLf(s);
    } else if s[0] == '\r' {
      NormalizeEscape(s[1..]);
      NormalizeEscapeCr(s);
    } else {
      NormalizeEscape(s[1..]);
      NormalizeEscapeOther(s);
    }
  }

  lemma NormalizeEscapeCrLf(s: string)
    requires |s| > 1 && s[0] == '\r' && s[1] == '\n'
    requires NormalizeNewlines(EscapeEach(s[2..])) == EscapeEach(NormalizeNewlines(s[2..]))
    ensures NormalizeNewlines(EscapeEach(s)) == EscapeEach(NormalizeNewlines(s))
  {
    var rest := s[2..];
    assert EscapeEach(s) == ['\r', '\n'] + EscapeEach(rest) by {
      EscapeFirst(s);
      EscapeCharPlain('\r');
      EscapeFirst(s[1..]);
      EscapeCharPlain('\n');
      assert s[1..][0] == '\n' && s[1..][1..] == rest;
    }
    NormalizeCrLf(EscapeEach(rest));
    assert NormalizeNewlines(s) == "\n" + NormalizeNewlines(rest);
    EscapeCons('\n', NormalizeNewlines(rest));
  }

  lemma NormalizeEscapeCr(s: string)
    requires |s| > 0 && s[0] == '\r' && !(|s| > 1 && s[1] == '\n')
    requires NormalizeNewlines(EscapeEach(s[1..])) == EscapeEach(NormalizeNewlines(s[1..]))
    ensures NormalizeNewlines(EscapeEach(s)) == EscapeEach(NormalizeNewlines(s))
  {
    var rest := s[1..];
    var e := EscapeEach(rest);
    assert EscapeEach(s) == ['\r'] + e by {
      EscapeFirst(s);
      EscapeCharPlain('\r');
    }
    if |rest| > 0 {
      EscapeFirst(rest);
      assert e[0] == EscapeChar(rest[0])[0];
    }
    NormalizeCr(e);
    assert NormalizeNewlines(s) == "\n" + NormalizeNewlines(rest);
    EscapeCons('\n', NormalizeNewlines(rest));
  }

  lemma NormalizeEscapeOther(s: string)
    requires |s| > 0 && s[0] != '\r'
    requires NormalizeNewlines(EscapeEach(s[1..])) == EscapeEach(NormalizeNewlines(s[1..]))
    ensures NormalizeNewlines(EscapeEach(s)) == EscapeEach(NormalizeNewlines(s))
  {
    var c := s[0];
    EscapeFirst(s);
    EscapeCharNoCr(c);
    NormalizePrefix(EscapeChar(c), EscapeEach(s[1..]));
    assert NormalizeNewlines(s) == [c] + NormalizeNewlines(s[1..]);
    EscapeCons(c, NormalizeNewlines(s[1..]));
  }

  lemma {:induction false} TextBeforeTagStops(t: string, rest: string)
    requires forall i :: 0 <= i < |t| ==> t[i] != '<'
    requires |rest| > 0 && rest[0] == '<'
    ensures TextBeforeTag(t + rest) == t
    decreases |t|
  {
    if |t| == 0 {
      assert t + rest == rest;
    } else {
      assert (t + rest)[1..] == t[1..] + rest;
      TextBeforeTagStops(t[1..], rest);
      assert t == [t[0]] + t[1..];
    }
  }

  /** Where each of three concatenated parts sits. */
  lemma ThreeParts(head: string, e: string, rest: string)
    ensures var page := head + e + rest;
            StartsWith(page, head)
            && page[|head|..] == e + rest
            && page[|head|..|head| + |e|] == e
            && page[|head| + |e|..] == rest
  {
    var page := head + e + rest;
    assert page[..|head|] == head;
    assert page[|head|..] == e + rest;
    assert (e + rest)[..|e|] == e;
  }

  /**
   * The page starts with the fixed head and the hidden element's start tag, the escaped Markdown
   * follows, and it runs up to the hidden element's own end tag: nothing in the Markdown can
   * close the element early.
   */
  lemma EmbedsEscapedContent(frame: PageFrame, markdownContent: string)
    ensures var page := RenderPage(frame, markdownContent);
            var start := |frame.head + RAW_OPEN|;
            var e := EscapeForHtml(markdownContent);
            StartsWith(page, frame.head + RAW_OPEN)
            && page[start..start + |e|] == e
            && StartsWith(page[start + |e|..], RAW_CLOSE)
            && TextBeforeTag(page[start..]) == e
  {
    var head := frame.head + RAW_OPEN;
    var e := EscapeForHtml(markdownContent);
    var rest := RAW_CLOSE + frame.tail;
    assert RenderPage(frame, markdownContent) == head + e + rest;
    ThreeParts(head, e, rest);
    NoRawMarkup(markdownContent);
    TextBeforeTagStops(e, rest);
  }

  /**
   * Reading the hidden element back yields the Markdown that was put in, as the parser keeps
   * it: nothing in the Markdown can end the element or be mistaken for markup. A Markdown text
   * without CR and NUL comes back exactly.
   */
  lemma RenderRoundTrip(frame: PageFrame, markdownContent: string)
    ensures RawMarkdownText(frame, RenderPage(frame, markdownContent)) == ParsedText(markdownContent)
    ensures '\r' !in markdownContent && '\0' !in markdownContent ==>
              RawMarkdownText(frame, RenderPage(frame, markdownContent)) == markdownContent
  {
    EmbedsEscapedContent(frame, markdownContent);
    ChainIsSinglePass(markdownContent);
    NormalizeEscape(markdownContent);
    UnescapeEach(NormalizeNewlines(markdownContent));
    if '\r' !in markdownContent && '\0' !in markdownContent {
      ParsedTextPlain(markdownContent);
    }
  }

  /** The report page reads back the Markdown it was built from; exactly, when it holds no CR and no NUL. */
  lemma ReportRoundTrip(markdownContent: string)
    ensures RawMarkdownText(REPORT_FRAME, BuildReportHtml(markdownContent)) == ParsedText(markdownContent)
    ensures '\r' !in markdownContent && '\0' !in markdownContent ==>
              RawMarkdownText(REPORT_FRAME, BuildReportHtml(markdownContent)) == markdownContent
  {
    RenderRoundTrip(REPORT_FRAME, markdownContent);
  }
}
