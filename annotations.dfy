/**
 * Annotation stripping (`remove_annotations`, app.py).
 *
 * The assistant marks citations with spans such as `【4:0†source】`. The source deletes them
 * with `re.sub(r'\【.*?\】', '', text)`: scanning left to right, a match starts at an opening
 * bracket U+3010 and ends at the FIRST closing bracket U+3011 after it (lazy `.*?`), provided no
 * newline lies in between (without DOTALL, `.` does not match a newline). An opening bracket
 * that cannot be matched is kept and the scan resumes at the next character.
 */
module Annotations {
  import opened Wrappers

  const OPEN: char := '\U{3010}'
  const CLOSE: char := '\U{3011}'
  const NEWLINE: char := '\n'

  /** Index in `t` of the first closing bracket that no newline precedes: where the lazy `.*?`
      of a match begun just before `t` stops. None when a newline, or the end, comes first. */
  function CloseIndex(t: seq<char>): (r: Option<nat>)
    ensures r.Some? ==> r.value < |t| && t[r.value] == CLOSE
    ensures r.Some? ==> CLOSE !in t[..r.value] && NEWLINE !in t[..r.value]
    ensures r.None? ==> forall j :: 0 <= j < |t| && t[j] == CLOSE ==> NEWLINE in t[..j]
  {
    if t == [] then None
    else if t[0] == CLOSE then Some(0)
    else if t[0] == NEWLINE then None
    else
      match CloseIndex(t[1..])
      case None =>
        assert forall j :: 1 <= j < |t| ==> t[..j] == [t[0]] + t[1..][..j - 1];
        None
      case Some(k) =>
        assert t[..k + 1] == [t[0]] + t[1..][..k];
        Some(k + 1)
  }

  /** The regular expression's substitution, one match (or one kept character) at a time. */
  function RemoveAnnotations(s: seq<char>): (r: seq<char>)
    ensures |r| <= |s|
    decreases |s|
  {
    if s == [] then []
    else if s[0] == OPEN then
      match CloseIndex(s[1..])
      case Some(k) => RemoveAnnotations(s[k + 2..])
      case None => [OPEN] + RemoveAnnotations(s[1..])
    else [s[0]] + RemoveAnnotations(s[1..])
  }

  /** `s[i..j+1]` is an annotation the pattern can match: an opening bracket at `i`, a closing
      bracket at `j`, and no newline strictly between them. */
  predicate SpanAt(s: seq<char>, i: int, j: int)
  {
    0 <= i < j < |s| && s[i] == OPEN && s[j] == CLOSE && NEWLINE !in s[i + 1..j]
  }

  /** Some annotation span, free of newlines, occurs in `s`. */
  predicate HasSpan(s: seq<char>)
  {
    exists i, j | 0 <= i < j < |s| :: SpanAt(s, i, j)
  }

  /** `a` can be obtained from `b` by deleting characters. */
  predicate IsSubsequence(a: seq<char>, b: seq<char>)
    decreases |b|
  {
    a == [] || (b != [] && ((a[0] == b[0] && IsSubsequence(a[1..], b[1..])) || IsSubsequence(a, b[1..])))
  }

  // ---------------------------------------------------------------------------------------
  // Span bookkeeping

  /** A span of `s[1..]` is a span of `s`, one position further right. */
  lemma SpanInTail(s: seq<char>, i: int, j: int)
    requires |s| > 0 && SpanAt(s[1..], i, j)
    ensures SpanAt(s, i + 1, j + 1)
  {
    assert s[1..][i + 1..j] == s[i + 2..j + 1];
  }

  /** Removing the first character of a span-free string leaves it span-free. */
  lemma NoSpanTail(s: seq<char>)
    requires |s| > 0 && !HasSpan(s)
    ensures !HasSpan(s[1..])
  {
    forall i, j | SpanAt(s[1..], i, j) ensures SpanAt(s, i + 1, j + 1) {
      SpanInTail(s, i, j);
    }
  }

  /** Putting `c` in front of a span-free `r` creates no span, unless `c` is an opening bracket
      that a closing bracket in `r` can answer. */
  lemma ConsNoSpan(c: char, r: seq<char>)
    requires !HasSpan(r)
    requires c == OPEN ==> CloseIndex(r) == None
    ensures !HasSpan([c] + r)
  {
    var s := [c] + r;
    assert s[1..] == r;
    forall i, j | 0 <= i < j < |s| && s[i] == OPEN && s[j] == CLOSE
      ensures NEWLINE in s[i + 1..j]
    {
      if i == 0 {
        assert r[j - 1] == CLOSE;
        assert s[1..j] == r[..j - 1];
      } else {
        assert s[i + 1..j] == r[i..j - 1];
        assert !SpanAt(r, i - 1, j - 1);
      }
    }
  }

  /** A leading opening bracket of a span-free string has no closing bracket to answer it. */
  lemma NoSpanHead(s: seq<char>)
    requires |s| > 0 && s[0] == OPEN && !HasSpan(s)
    ensures CloseIndex(s[1..]) == None
  {
    match CloseIndex(s[1..])
    case None =>
    case Some(k) =>
      assert s[1..][..k] == s[1..k + 1];
      assert SpanAt(s, 0, k + 1);
  }

  /** When no closing bracket answers before the first newline, stripping deletes nothing
      before that newline either, so it still finds no closing bracket there. */
  lemma {:induction false} UnansweredStaysUnanswered(t: seq<char>)
    requires CloseIndex(t) == None
    ensures CloseIndex(RemoveAnnotations(t)) == None
    decreases |t|
  {
    if t == [] || t[0] == NEWLINE {
    } else {
      assert CloseIndex(t[1..]) == None;
      UnansweredStaysUnanswered(t[1..]);
      var r := RemoveAnnotations(t);
      assert r == [t[0]] + RemoveAnnotations(t[1..]);
      assert r[1..] == RemoveAnnotations(t[1..]);
    }
  }

  // ---------------------------------------------------------------------------------------
  // What stripping promises

  /** No annotation span free of newlines survives stripping. */
  lemma {:induction false} NoSpanRemains(s: seq<char>)
    ensures !HasSpan(RemoveAnnotations(s))
    decreases |s|
  {
    if s == [] {
    } else if s[0] == OPEN {
      match CloseIndex(s[1..])
      case Some(k) =>
        NoSpanRemains(s[k + 2..]);
      case None =>
        NoSpanRemains(s[1..]);
        UnansweredStaysUnanswered(s[1..]);
        ConsNoSpan(OPEN, RemoveAnnotations(s[1..]));
    } else {
      NoSpanRemains(s[1..]);
      ConsNoSpan(s[0], RemoveAnnotations(s[1..]));
    }
  }

  /** A string free of annotation spans is returned unchanged. */
  lemma {:induction false} NoSpanUnchanged(s: seq<char>)
    requires !HasSpan(s)
    ensures RemoveAnnotations(s) == s
    decreases |s|
  {
    if s != [] {
      NoSpanTail(s);
      NoSpanUnchanged(s[1..]);
      if s[0] == OPEN {
        NoSpanHead(s);
      }
    }
  }

  /** Stripping changes a string exactly when it holds an annotation span. */
  lemma UnchangedIffNoSpan(s: seq<char>)
    ensures RemoveAnnotations(s) == s <==> !HasSpan(s)
  {
    if !HasSpan(s) {
      NoSpanUnchanged(s);
    } else {
      NoSpanRemains(s);
    }
  }

  /** Stripping twice is stripping once. */
  lemma Idempotent(s: seq<char>)
    ensures RemoveAnnotations(RemoveAnnotations(s)) == RemoveAnnotations(s)
  {
    NoSpanRemains(s);
    NoSpanUnchanged(RemoveAnnotations(s));
  }

  /** A string with no opening bracket is returned unchanged. */
  lemma NoOpenUnchanged(s: seq<char>)
    requires OPEN !in s
    ensures RemoveAnnotations(s) == s
  {
    forall i | 0 <= i < |s| ensures s[i] != OPEN {
      assert s[i] in s;
    }
    NoSpanUnchanged(s);
  }

  /** A subsequence of a suffix of `b` is a subsequence of `b`. */
  lemma {:induction false} SubsequenceOfSuffix(a: seq<char>, b: seq<char>, n: nat)
    requires n <= |b| && IsSubsequence(a, b[n..])
    ensures IsSubsequence(a, b)
    decreases n
  {
    if n > 0 {
      assert b[1..][n - 1..] == b[n..];
      SubsequenceOfSuffix(a, b[1..], n - 1);
    }
  }

  /** Stripping only deletes characters: the output is a subsequence of the input. */
  lemma {:induction false} RemovesOnly(s: seq<char>)
    ensures IsSubsequence(RemoveAnnotations(s), s)
    decreases |s|
  {
    if s == [] {
    } else if s[0] == OPEN && CloseIndex(s[1..]).Some? {
      var k := CloseIndex(s[1..]).value;
      RemovesOnly(s[k + 2..]);
      SubsequenceOfSuffix(RemoveAnnotations(s), s, k + 2);
    } else {
      RemovesOnly(s[1..]);
      var r := RemoveAnnotations(s);
      assert r[0] == s[0] && r[1..] == RemoveAnnotations(s[1..]);
    }
  }

  /** A match begun before a newline ends where it would if the text stopped at the newline. */
  lemma {:induction false} CloseIndexStopsAtNewline(x: seq<char>, y: seq<char>)
    ensures CloseIndex(x + [NEWLINE] + y) == CloseIndex(x)
    decreases |x|
  {
    if x != [] {
      assert (x + [NEWLINE] + y)[1..] == x[1..] + [NEWLINE] + y;
      CloseIndexStopsAtNewline(x[1..], y);
    }
  }

  /** A newline is a barrier no match crosses: the text on each side is stripped on its own. */
  lemma {:induction false} NewlineSeparates(a: seq<char>, b: seq<char>)
    ensures RemoveAnnotations(a + [NEWLINE] + b)
         == RemoveAnnotations(a) + [NEWLINE] + RemoveAnnotations(b)
    decreases |a|
  {
    var s := a + [NEWLINE] + b;
    if a == [] {
      assert s == [NEWLINE] + b;
      assert s[1..] == b;
    } else {
      assert s[0] == a[0];
      assert s[1..] == a[1..] + [NEWLINE] + b;
      if a[0] == OPEN {
        CloseIndexStopsAtNewline(a[1..], b);
        match CloseIndex(a[1..])
        case Some(k) =>
          assert s[k + 2..] == a[k + 2..] + [NEWLINE] + b;
          NewlineSeparates(a[k + 2..], b);
        case None =>
          NewlineSeparates(a[1..], b);
      } else {
        NewlineSeparates(a[1..], b);
      }
    }
  }

  /** Text free of opening brackets passes through untouched, whatever follows it. */
  lemma {:induction false} PlainPrefixKept(p: seq<char>, q: seq<char>)
    requires OPEN !in p
    ensures RemoveAnnotations(p + q) == p + RemoveAnnotations(q)
    decreases |p|
  {
    if p == [] {
      assert p + q == q;
    } else {
      assert p[0] in p;
      assert (p + q)[0] == p[0] && (p + q)[1..] == p[1..] + q;
      PlainPrefixKept(p[1..], q);
      assert RemoveAnnotations(p + q) == [p[0]] + RemoveAnnotations(p[1..] + q);
      assert p + RemoveAnnotations(q) == [p[0]] + (p[1..] + RemoveAnnotations(q));
    }
  }

  /** The lazy match of a span whose body holds no closing bracket and no newline ends at the
      closing bracket right after the body. */
  lemma {:induction false} CloseIndexAfterBody(body: seq<char>, q: seq<char>)
    requires CLOSE !in body && NEWLINE !in body
    ensures CloseIndex(body + [CLOSE] + q) == Some(|body|)
    decreases |body|
  {
    if body != [] {
      assert (body + [CLOSE] + q)[1..] == body[1..] + [CLOSE] + q;
      CloseIndexAfterBody(body[1..], q);
    }
  }

  /** A whole annotation span at the front is deleted and the rest is stripped on its own. */
  lemma SpanDeleted(body: seq<char>, q: seq<char>)
    requires CLOSE !in body && NEWLINE !in body
    ensures RemoveAnnotations([OPEN] + body + [CLOSE] + q) == RemoveAnnotations(q)
  {
    var s := [OPEN] + body + [CLOSE] + q;
    assert s[1..] == body + [CLOSE] + q;
    CloseIndexAfterBody(body, q);
    assert s[|body| + 2..] == q;
  }

  /** The citation the assistant appends is removed: "Hi there【1†source】" becomes "Hi there". */
  lemma CitationRemoved()
    ensures RemoveAnnotations("Hi there\U{3010}1\U{2020}source\U{3011}") == "Hi there"
  {
    var body := "1\U{2020}source";
    assert "Hi there\U{3010}1\U{2020}source\U{3011}" == "Hi there" + ([OPEN] + body + [CLOSE] + []);
    SpanDeleted(body, []);
    PlainPrefixKept("Hi there", [OPEN] + body + [CLOSE] + []);
  }
}
