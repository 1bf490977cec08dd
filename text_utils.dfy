/** Text helpers: truncation to the configured length and removal of the
    markdown fence a model may wrap its JSON in. */
module TextUtils {
  import opened Outcomes
  import opened Strings
  import opened Config

  /** The limit `truncate_text` applies: the argument, or the setting. */
  function TruncateLimit(maxLength: Option<int>, settings: Settings): int {
    maxLength.GetOr(settings.maxTextLength)
  }

  /** `truncate_text(text, max_length)`: the text itself when it fits,
      otherwise `text[:max_length]`. */
  function TruncateText(text: string, maxLength: Option<int>, settings: Settings): (r: string)
    ensures |r| <= |text| && r == text[..|r|]
    ensures |text| <= TruncateLimit(maxLength, settings) ==> r == text
    ensures TruncateLimit(maxLength, settings) >= 0 ==>
              |r| == if |text| <= TruncateLimit(maxLength, settings) then |text|
                     else TruncateLimit(maxLength, settings)
  {
    var limit := TruncateLimit(maxLength, settings);
    if |text| <= limit then text else SliceTo(text, limit)
  }

  /** For a non-negative limit, truncating twice is truncating once. */
  lemma TruncateIdempotent(text: string, maxLength: Option<int>, settings: Settings)
    requires TruncateLimit(maxLength, settings) >= 0
    ensures TruncateText(TruncateText(text, maxLength, settings), maxLength, settings)
         == TruncateText(text, maxLength, settings)
  {
  }

  /** Without an explicit limit the default settings keep 15000 characters. */
  lemma DefaultTruncation(text: string)
    ensures |TruncateText(text, None, DefaultSettings)| == if |text| <= 15000 then |text| else 15000
  {
  }

  const Fence: string := "```"
  const JsonFence: string := "```json"

  /** The text between the opening-fence test and the final strip. */
  function Unfenced(content: string): string {
    var afterOpen :=
      if StartsWith(content, JsonFence) then content[7..]
      else if StartsWith(content, Fence) then content[3..]
      else content;
    if EndsWith(afterOpen, Fence) then afterOpen[..|afterOpen| - 3] else afterOpen
  }

  /** Removing the fences leaves a contiguous piece of the text, and
      nothing is removed from a text with no fence at either end. */
  lemma UnfencedShape(content: string)
    ensures |Unfenced(content)| <= |content| && IsInfix(Unfenced(content), content)
    ensures !StartsWith(content, Fence) && !EndsWith(content, Fence) ==> Unfenced(content) == content
  {
    JsonFenceIsFence(content);
    var afterOpen :=
      if StartsWith(content, JsonFence) then content[7..]
      else if StartsWith(content, Fence) then content[3..]
      else content;
    assert InfixAt(Unfenced(content), content, |content| - |afterOpen|);
  }

  /** `clean_json_response`: strip, drop a leading "```json" (tested first)
      or "```", drop a trailing "```", strip again. */
  function CleanJsonResponse(content: string): string {
    Strip(Unfenced(Strip(content)))
  }

  /** The cleaned text has no whitespace at either end and is no longer
      than the input; an input with no fence is only stripped. */
  lemma CleanJsonShape(content: string)
    ensures var r := CleanJsonResponse(content);
            && (r == [] || (!IsSpace(r[0]) && !IsSpace(r[|r| - 1])))
            && |r| <= |content|
            && (!StartsWith(Strip(content), Fence) && !EndsWith(Strip(content), Fence) ==> r == Strip(content))
  {
    var stripped := Strip(content);
    var r := Strip(Unfenced(stripped));
    StripShape(Unfenced(stripped));
    assert r == [] || (!IsSpace(r[0]) && !IsSpace(r[|r| - 1]));
    StripIdempotent(content);
    UnfencedShape(stripped);
  }

  /** A json-tagged opening fence is in particular an opening fence. */
  lemma JsonFenceIsFence(s: string)
    ensures StartsWith(s, JsonFence) ==> StartsWith(s, Fence)
  {
    if StartsWith(s, JsonFence) {
      assert s[..3] == s[..7][..3];
    }
  }

  /** What `clean_json_response` returns is a contiguous piece of its input. */
  lemma CleanIsInfixOfInput(content: string)
    ensures IsInfix(CleanJsonResponse(content), content)
  {
    var stripped := Strip(content);
    CleanIsInfix(content, stripped, Strip(Unfenced(stripped)));
  }

  lemma CleanIsInfix(content: string, stripped: string, r: string)
    requires stripped == Strip(content) && r == Strip(Unfenced(stripped))
    ensures IsInfix(r, content)
  {
    UnfencedShape(stripped);
    StripIsInfix(Unfenced(stripped));
    InfixTransitive(r, Unfenced(stripped), stripped);
    StripIsInfix(content);
    InfixTransitive(r, stripped, content);
  }

  lemma InfixTransitive(a: string, b: string, c: string)
    requires IsInfix(a, b) && IsInfix(b, c)
    ensures IsInfix(a, c)
  {
    var i :| InfixAt(a, b, i);
    var j :| InfixAt(b, c, j);
    forall k | 0 <= k < |a|
      ensures c[j + i + k] == a[k]
    {
      assert a[k] == b[i + k];
      assert b[i + k] == c[j + i + k];
    }
    assert c[j + i..j + i + |a|] == a;
    assert InfixAt(a, c, j + i);
  }

  /** A json-tagged fence is removed whole, tag included, and the closing
      fence with it; what remains is the body, stripped. */
  lemma CleanJsonTaggedFence(body: string)
    ensures CleanJsonResponse(JsonFence + body + Fence) == Strip(body)
  {
    var s := JsonFence + body + Fence;
    assert !IsSpace(s[0]) && !IsSpace(s[|s| - 1]);
    assert LStrip(s) == s;
    assert RStrip(s) == s;
    assert StartsWith(s, JsonFence);
    assert s[7..] == body + Fence;
    assert (body + Fence)[..|body|] == body;
  }
}
