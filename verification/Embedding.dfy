/** What is embedded for a chunk: the place of its block in the document, then what it displays. */
module Embedding {
  import opened Sequences
  import opened Unicode
  import opened Splitting
  import opened Texts
  import opened Drafts

  /** How the kind of content is announced; plain text is not. */
  predicate IsTag(language: Option<string>, kind: ContentType, tag: string) {
    && (kind == TextContent ==> tag == "")
    && (kind == CodeContent && language.Some? && language.value != "" ==> tag == "[code:" + language.value + "]")
    && (kind == CodeContent && (language.None? || language.value == "") ==> tag == "[code:text]")
    && (kind == MermaidContent ==> tag == "[mermaid diagram]") && (kind == ListContent ==> tag == "[list]")
    && (kind == QuoteContent ==> tag == "[blockquote]") && (kind == CalloutContent ==> tag == "[callout]")
    && (kind == TableContent ==> tag == "[table]") && (kind == UnknownContent ==> tag == "[unknown]")
  }

  /** The headings above a block from the outermost, then on a line of its own what it is. */
  ghost predicate IsContext(path: seq<string>, language: Option<string>, kind: ContentType, context: string) {
    exists headings, tag ::
      && IsJoined(path, " > ", headings) && IsTag(language, kind, tag)
      && context == (if headings == "" then tag else if tag == "" then headings else headings + "\n" + tag)
  }

  /** The text without the space at its end. */
  predicate IsTrimmed(text: string, trimmed: string) {
    && trimmed <= text && (trimmed == "" || !IsSpace(trimmed[|trimmed| - 1]))
    && forall i :: |trimmed| <= i < |text| ==> IsSpace(text[i])
  }

  /** The longest beginning within so many bytes. */
  predicate IsLongest(text: string, maxBytes: int, cut: nat) {
    && cut <= |text| && Bytes(text[..cut]) <= maxBytes && (cut < |text| ==> Bytes(text[..cut + 1]) > maxBytes)
  }

  /** The context as far as it fits beside a body of at least four bytes. */
  ghost predicate IsPrefix(c: Config, path: seq<string>, language: Option<string>, kind: ContentType, prefix: string) {
    if c.maxTokens * 4 - 6 <= 0 then prefix == ""
    else exists context, cut: nat ::
           && IsContext(path, language, kind, context) && IsLongest(context, c.maxTokens * 4 - 6, cut)
           && IsTrimmed(context[..cut], prefix)
  }

  /** The prefix, a blank line and the display; the display alone if there is no prefix. */
  ghost predicate Embeds(c: Config, path: seq<string>, language: Option<string>, kind: ContentType, display: string,
                         text: string) {
    exists prefix :: && IsPrefix(c, path, language, kind, prefix)
                     && text == (if prefix == "" then display else prefix + "\n\n" + display)
  }

  // ----------------------------------------------------------- what the chunker embeds

  lemma ContextMeans(block: Block, kind: ContentType, context: string)
    ensures IsContext(block.headingPath, block.language, kind, context) <==> context == FullPrefix(block, kind)
  {
    hide Join, IsJoined, IsTag, Label;
    var headings, tag := Join(block.headingPath, " > "), Label(block, kind);
    JoinIsJoined(block.headingPath, " > ", headings);
    TagMeans(block, kind);
    if IsContext(block.headingPath, block.language, kind, context) {
      var h, t :| && IsJoined(block.headingPath, " > ", h) && IsTag(block.language, kind, t)
                  && context == (if h == "" then t else if t == "" then h else h + "\n" + t);
      JoinIsJoined(block.headingPath, " > ", h);
      TagDetermined(block.language, kind, t, tag);
    }
  }

  lemma TagMeans(block: Block, kind: ContentType)
    ensures IsTag(block.language, kind, Label(block, kind))
  {
  }

  lemma TagDetermined(language: Option<string>, kind: ContentType, s: string, t: string)
    requires IsTag(language, kind, s) && IsTag(language, kind, t)
    ensures s == t
  {
  }

  lemma LongestDetermined(text: string, maxBytes: int, i: nat, j: nat)
    requires IsLongest(text, maxBytes, i) && IsLongest(text, maxBytes, j)
    ensures i == j
  {
    hide Bytes;
    if i < j {
      PrefixBytes(text[..i + 1], text[..j]);
    } else if j < i {
      PrefixBytes(text[..j + 1], text[..i]);
    }
  }

  lemma {:induction false} TruncateIsLongest(text: string, maxBytes: nat)
    ensures IsLongest(text, maxBytes, |Truncate(text, maxBytes)|)
    ensures text[..|Truncate(text, maxBytes)|] == Truncate(text, maxBytes)
    decreases |text|
  {
    if text != [] && Bytes(text) > maxBytes {
      var shorter := text[..|text| - 1];
      TruncateIsLongest(shorter, maxBytes);
      var n := |Truncate(shorter, maxBytes)|;
      assert shorter[..n] == text[..n];
      if n < |shorter| {
        assert shorter[..n + 1] == text[..n + 1];
      } else {
        assert text[..n + 1] == text;
      }
    } else {
      assert text[..|text|] == text;
    }
  }

  lemma {:induction false} StripIsTrimmed(text: string)
    ensures IsTrimmed(text, StripRight(text))
    decreases |text|
  {
    if text != [] && IsSpace(text[|text| - 1]) {
      StripIsTrimmed(text[..|text| - 1]);
    }
  }

  lemma TrimmedDetermined(text: string, s: string, t: string)
    requires IsTrimmed(text, s) && IsTrimmed(text, t)
    ensures s == t
  {
    assert s == text[..|s|] && t == text[..|t|];
  }

  /** The prefix the chunker computes is that one and no other. */
  lemma PrefixMeans(c: Config, block: Block, kind: ContentType, prefix: string)
    ensures IsPrefix(c, block.headingPath, block.language, kind, prefix) <==> prefix == EmbeddingPrefix(c, block, kind)
  {
    hide FullPrefix, Truncate, StripRight, IsContext, Bytes, IsTrimmed;
    var limit := c.maxTokens * 4 - 6;
    if limit > 0 {
      var full := FullPrefix(block, kind);
      ContextMeans(block, kind, full);
      TruncateIsLongest(full, limit);
      StripIsTrimmed(Truncate(full, limit));
      if IsPrefix(c, block.headingPath, block.language, kind, prefix) {
        var context, cut: nat :| && IsContext(block.headingPath, block.language, kind, context)
                                 && IsLongest(context, limit, cut) && IsTrimmed(context[..cut], prefix);
        ContextMeans(block, kind, context);
        LongestDetermined(full, limit, cut, |Truncate(full, limit)|);
        TrimmedDetermined(context[..cut], prefix, EmbeddingPrefix(c, block, kind));
      }
    }
  }

  /** The embedding text of a chunk is determined by heading path, language, kind and display, as stated. */
  lemma EmbeddingMeans(c: Config, block: Block, display: string, kind: ContentType, text: string)
    ensures Embeds(c, block.headingPath, block.language, kind, display, text) <==>
            text == EmbeddingText(c, block, display, kind)
  {
    hide EmbeddingPrefix, IsPrefix;
    PrefixMeans(c, block, kind, EmbeddingPrefix(c, block, kind));
    if Embeds(c, block.headingPath, block.language, kind, display, text) {
      var prefix :| && IsPrefix(c, block.headingPath, block.language, kind, prefix)
                    && text == (if prefix == "" then display else prefix + "\n\n" + display);
      PrefixMeans(c, block, kind, prefix);
    }
  }

  /** If the headings and the tag fit, they are embedded whole, up to space at their end. */
  lemma WholeContext(c: Config, path: seq<string>, language: Option<string>, kind: ContentType, context: string,
                     display: string)
    requires IsContext(path, language, kind, context) && Bytes(context) <= c.maxTokens * 4 - 6
             && c.maxTokens * 4 - 6 > 0
    requires context != "" && !IsSpace(context[|context| - 1])
    ensures Embeds(c, path, language, kind, display, context + "\n\n" + display)
  {
    hide IsContext;
    assert context[..|context|] == context;
    assert IsLongest(context, c.maxTokens * 4 - 6, |context|);
    assert IsTrimmed(context[..|context|], context);
    assert IsPrefix(c, path, language, kind, context);
  }

  const DEFAULT := Config(1, 3200, 8000, 2000, 300, 80, 40, 80)

  lemma {:induction false} AsciiBytes(text: string)
    requires forall i :: 0 <= i < |text| ==> text[i] < '\U{80}'
    ensures Bytes(text) == |text|
  {
    if text != [] {
      AsciiBytes(text[1..]);
    }
  }

  lemma ShortContext(block: Block, kind: ContentType, context: string, display: string)
    requires IsContext(block.headingPath, block.language, kind, context) && 0 < |context| <= 7994
    requires !IsSpace(context[|context| - 1]) && forall i :: 0 <= i < |context| ==> context[i] < '\U{80}'
    ensures EmbeddingText(DEFAULT, block, display, kind) == context + "\n\n" + display
  {
    hide IsContext, EmbeddingText, Embeds, Bytes, IsSpace;
    AsciiBytes(context);
    WholeContext(DEFAULT, block.headingPath, block.language, kind, context, display);
    EmbeddingMeans(DEFAULT, block, display, kind, context + "\n\n" + display);
  }

  /** A paragraph and a list under one heading, with the default limits. */
  lemma HeadingIsEmbedded(block: Block)
    requires block.headingPath == ["Intro"]
    ensures EmbeddingText(DEFAULT, block, "hello", TextContent) == "Intro" + "\n\n" + "hello"
    ensures EmbeddingText(DEFAULT, block, "hello", ListContent) == "Intro\n[list]" + "\n\n" + "hello"
  {
    hide EmbeddingText;
    assert IsJoined(block.headingPath, " > ", "Intro");
    assert IsTag(block.language, TextContent, "");
    assert IsTag(block.language, ListContent, "[list]");
    assert "Intro" + "\n" + "[list]" == "Intro\n[list]";
    ShortContext(block, TextContent, "Intro", "hello");
    ShortContext(block, ListContent, "Intro\n[list]", "hello");
  }
}
