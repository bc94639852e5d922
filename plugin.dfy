/** The markdown toggle controller of the Parsedown Party plugin.

    Per post, a flag in post meta says whether the body is written in
    Markdown. Saving a post with the flag flipped converts the body between
    Markdown and HTML; rendering a Markdown post converts it to HTML and keeps
    the result in a transient cache. The host's stores are modelled as maps
    keyed by post id: the meta value under `kizu514_use_markdown`, the
    transient `kizu514_use_markdown_<id>`, and the post body. The two
    conversion libraries and WordPress's `wpautop` are function values. */
module ParsedownParty {

  import opened Wrappers
  import opened Php

  /** Post-meta key of the flag; `<MetaKey>_<id>` is the transient key. */
  const MetaKey: string := "kizu514_use_markdown"

  /** The admin screens on which the editor is reconfigured. */
  const SupportedPages: seq<string> := ["post.php", "post-new.php"]

  /** The editor settings switched off for a Markdown post. */
  const DisabledEditorSettings: set<string> := {"wpautop", "media_buttons", "tinymce", "quicktags"}

  // ---------------------------------------------------------------------
  // Flag resolution
  // ---------------------------------------------------------------------

  /** `get_post_meta( $id, MetaKey, true )`: the stored string, "" when unset. */
  function MetaOf(meta: map<int, string>, id: int): (v: string)
    ensures id in meta ==> v == meta[id]
    ensures v != "" ==> id in meta
  {
    if id in meta then meta[id] else ""
  }

  /** The string WordPress stores for `update_post_meta( $id, MetaKey, 1 or 0 )`,
      which is also what the hidden toggle field carries (`(int) $use_markdown`). */
  function FlagValue(enabled: bool): (v: string)
    ensures |v| == 1 && IsDigit(v[0])
    ensures IsTruthy(v) <==> enabled
  {
    if enabled then "1" else "0"
  }

  /** The stored flag reads back as the mode it was written for: its
      `absint` is 1 exactly when enabled, it is "0" exactly when disabled,
      and it is never the unset value "". */
  lemma FlagValueReadsBack(enabled: bool)
    ensures AbsInt(FlagValue(enabled)) == 1 <==> enabled
    ensures FlagValue(enabled) == "0" <==> !enabled
    ensures FlagValue(enabled) != ""
  {
    AbsIntOfDigit('1');
    AbsIntOfDigit('0');
  }

  /** `getPost`: the current post, or else the post found by the legacy
      global `$id`. */
  function GetPost(current: Option<int>, byGlobalId: Option<int>): (r: Option<int>)
    ensures current.Some? ==> r == current
    ensures current == None ==> r == byGlobalId
  {
    if current.Some? then current else byGlobalId
  }

  /** `useMarkdownForPost`: a flag whose `absint` is 1 enables Markdown, the
      exact string "0" disables it, and anything else (no post, no flag, any
      other value) defers to the `parsedownparty_autoenable` policy. */
  function UseMarkdownForPost(meta: map<int, string>, post: Option<int>, autoenable: bool): (r: bool)
    ensures post.Some? && AbsInt(MetaOf(meta, post.value)) == 1 ==> r
    ensures post.Some? && MetaOf(meta, post.value) == "0" ==> !r
    ensures post == None || post.value !in meta ==> r == autoenable
    ensures post.Some? && AbsInt(MetaOf(meta, post.value)) != 1 && MetaOf(meta, post.value) != "0" ==>
              r == autoenable
    ensures r != autoenable ==> post.Some? && post.value in meta && (r <==> AbsInt(meta[post.value]) == 1)
  {
    AbsIntOfDigit('0');
    if post.Some? && AbsInt(MetaOf(meta, post.value)) == 1 then true
    else if post.Some? && MetaOf(meta, post.value) == "0" then false
    else autoenable
  }

  /** A flag written by a save decides the mode whatever the policy says. */
  lemma StoredFlagOverridesPolicy(meta: map<int, string>, id: int, enabled: bool, autoenable: bool)
    ensures UseMarkdownForPost(meta[id := FlagValue(enabled)], Some(id), autoenable) == enabled
  {
    FlagValueReadsBack(enabled);
    assert MetaOf(meta[id := FlagValue(enabled)], id) == FlagValue(enabled);
  }

  // ---------------------------------------------------------------------
  // Editor settings
  // ---------------------------------------------------------------------

  /** A value of the `wp_editor_settings` array. */
  datatype Setting = Flag(b: bool) | Text(s: string) | Number(n: int) | Group(entries: map<string, Setting>)

  /** The request edits a post on a supported screen and the post is Markdown. */
  predicate MarkdownEditing(page: string, meta: map<int, string>, post: Option<int>, autoenable: bool)
    ensures MarkdownEditing(page, meta, post, autoenable) ==>
              (page == "post.php" || page == "post-new.php") && UseMarkdownForPost(meta, post, autoenable)
  {
    page in SupportedPages && UseMarkdownForPost(meta, post, autoenable)
  }

  /** `parseEditorSettings`: on a Markdown post's edit screen, turn off
      paragraph wrapping, media buttons, the visual editor and quicktags;
      leave every other setting, and every other request, alone. */
  function ParseEditorSettings(settings: map<string, Setting>, page: string, meta: map<int, string>,
                               post: Option<int>, autoenable: bool): (r: map<string, Setting>)
    ensures MarkdownEditing(page, meta, post, autoenable) ==>
              r.Keys == settings.Keys + DisabledEditorSettings &&
              forall k :: k in DisabledEditorSettings ==> r[k] == Flag(false)
    ensures forall k :: k in settings && k !in DisabledEditorSettings ==> k in r && r[k] == settings[k]
    ensures !MarkdownEditing(page, meta, post, autoenable) ==> r == settings
  {
    if page in SupportedPages && UseMarkdownForPost(meta, post, autoenable) then
      settings["wpautop" := Flag(false)]["media_buttons" := Flag(false)]["tinymce" := Flag(false)]["quicktags" := Flag(false)]
    else
      settings
  }

  /** Running the filter twice gives what running it once does. */
  lemma ParseEditorSettingsIdempotent(settings: map<string, Setting>, page: string, meta: map<int, string>,
                                      post: Option<int>, autoenable: bool)
    ensures var once := ParseEditorSettings(settings, page, meta, post, autoenable);
            ParseEditorSettings(once, page, meta, post, autoenable) == once
  {
  }

  // ---------------------------------------------------------------------
  // Saving
  // ---------------------------------------------------------------------

  /** The three stores keyed by post id: flag meta, rendered-content
      transients and post bodies. */
  datatype Stores = Stores(meta: map<int, string>, cache: map<int, string>, body: map<int, string>)

  /** ParsedownExtra's `parse` (Markdown to HTML), League's HtmlConverter
      `convert` (HTML to Markdown, ATX headers) and WordPress's `wpautop`. */
  datatype Converters = Converters(parsedown: string -> string, htmlConverter: string -> string, wpautop: string -> string)

  /** The request around a `save_post` call: whether it is an autosave,
      whether the nonce field is present and verifies for the post id,
      whether the user may edit the post, and the submitted flag field. */
  datatype SaveRequest = SaveRequest(autosave: bool, nonceValid: bool, canEdit: bool, submitted: Option<string>)

  predicate Authorized(req: SaveRequest)
    ensures Authorized(req) ==> !req.autosave
    ensures Authorized(req) ==> req.nonceValid && req.canEdit
  {
    !req.autosave && req.nonceValid && req.canEdit
  }

  /** The requested mode: a non-empty field means Markdown. */
  predicate NewFlag(req: SaveRequest)
    ensures NewFlag(req) <==> req.submitted.Some? && IsTruthy(req.submitted.value)
  {
    !IsEmpty(req.submitted)
  }

  /** The body conversion for the new mode: HTML to Markdown (after
      paragraph wrapping) when enabling, Markdown to HTML when disabling. */
  function ConvertBody(conv: Converters, content: string, enable: bool): (r: string)
    ensures enable ==> r == conv.htmlConverter(conv.wpautop(content))
    ensures !enable ==> r == conv.parsedown(content)
  {
    if enable then conv.htmlConverter(conv.wpautop(content)) else conv.parsedown(content)
  }

  /** A save converts the body when it is authorized, the string form of the
      stored flag differs from the new flag, and no save is in progress. */
  predicate ConvertsOnSave(meta: map<int, string>, postId: int, req: SaveRequest, guardHeld: bool)
    ensures ConvertsOnSave(meta, postId, req, guardHeld) ==> Authorized(req) && !guardHeld
    ensures Authorized(req) && !guardHeld && postId !in meta ==> ConvertsOnSave(meta, postId, req, guardHeld)
  {
    Authorized(req) && MetaOf(meta, postId) != FlagValue(NewFlag(req)) && !guardHeld
  }

  /** The effect of `saveMarkdownMeta` on the stores, excluding the nested
      save that its own body update triggers (that one only evicts the
      cache entry again, see Plugin.SaveMarkdownMeta). */
  function SaveEffect(s: Stores, postId: int, content: string, req: SaveRequest, guardHeld: bool,
                      conv: Converters): (r: Stores)
    ensures !Authorized(req) ==> r == s
    ensures Authorized(req) ==> r.cache == s.cache - {postId}
    ensures r.meta - {postId} == s.meta - {postId} && r.body - {postId} == s.body - {postId}
    ensures !ConvertsOnSave(s.meta, postId, req, guardHeld) ==> r.meta == s.meta && r.body == s.body
  {
    if !Authorized(req) then s
    else if ConvertsOnSave(s.meta, postId, req, guardHeld) then
      var meta', body' := s.meta[postId := FlagValue(NewFlag(req))], s.body[postId := ConvertBody(conv, content, NewFlag(req))];
      assert meta' - {postId} == s.meta - {postId};
      assert body' - {postId} == s.body - {postId};
      Stores(meta', s.cache - {postId}, body')
    else
      Stores(s.meta, s.cache - {postId}, s.body)
  }

  /** After an authorized outer save the post is in the submitted mode,
      whatever the policy: either the flag was rewritten, or it already held
      the normalised form of the new flag. */
  lemma SaveSetsMode(s: Stores, postId: int, content: string, req: SaveRequest, conv: Converters, autoenable: bool)
    requires Authorized(req)
    ensures UseMarkdownForPost(SaveEffect(s, postId, content, req, false, conv).meta, Some(postId), autoenable)
            == NewFlag(req)
  {
    var r := SaveEffect(s, postId, content, req, false, conv);
    if ConvertsOnSave(s.meta, postId, req, false) {
      assert MetaOf(r.meta, postId) == FlagValue(NewFlag(req));
    }
    FlagResolves(r.meta, postId, NewFlag(req));
  }

  /** A post whose stored flag reads as the normalised flag of a mode
      resolves to that mode under either policy. */
  lemma FlagResolves(meta: map<int, string>, postId: int, enabled: bool)
    requires MetaOf(meta, postId) == FlagValue(enabled)
    ensures forall p :: UseMarkdownForPost(meta, Some(postId), p) == enabled
  {
    FlagValueReadsBack(enabled);
    assert postId in meta && meta[postId] == FlagValue(enabled);
    forall p ensures UseMarkdownForPost(meta, Some(postId), p) == enabled {
      StoredFlagOverridesPolicy(meta, postId, enabled, p);
      assert meta[postId := FlagValue(enabled)] == meta;
    }
  }
  /** For a post whose flag was written by an earlier save, a save
      converts exactly when it flips the mode the post currently shows. */
  lemma WrittenFlagConvertsIffModeFlips(meta: map<int, string>, postId: int, req: SaveRequest, stored: bool,
                                        autoenable: bool)
    requires Authorized(req)
    requires postId in meta && meta[postId] == FlagValue(stored)
    ensures ConvertsOnSave(meta, postId, req, false) <==> UseMarkdownForPost(meta, Some(postId), autoenable) != NewFlag(req)
  {
    FlagResolves(meta, postId, stored);
  }

  /** Enabling writes the HTML-to-Markdown conversion of the paragraph-wrapped
      body; disabling stores the Markdown-to-HTML conversion of the body; the
      flag is then rewritten in normalised form. */
  lemma SaveConvertsBody(s: Stores, postId: int, content: string, req: SaveRequest, conv: Converters)
    requires ConvertsOnSave(s.meta, postId, req, false)
    ensures var r := SaveEffect(s, postId, content, req, false, conv);
            && postId in r.body && postId in r.meta
            && r.meta[postId] == FlagValue(NewFlag(req))
            && (NewFlag(req) ==> r.body[postId] == conv.htmlConverter(conv.wpautop(content)))
            && (!NewFlag(req) ==> r.body[postId] == conv.parsedown(content))
  {
  }

  /** A save made while another is converting (the guard is held) converts
      nothing and writes neither flag nor body; it only evicts the cache. */
  lemma NestedSaveOnlyEvicts(s: Stores, postId: int, content: string, req: SaveRequest, conv: Converters)
    requires Authorized(req)
    ensures SaveEffect(s, postId, content, req, true, conv) == Stores(s.meta, s.cache - {postId}, s.body)
  {
  }

  /** Saving again with the same request converts nothing more: the flag
      written by the first save already equals the new flag. */
  lemma SaveIsStable(s: Stores, postId: int, content: string, content': string, req: SaveRequest, conv: Converters)
    ensures var r := SaveEffect(s, postId, content, req, false, conv);
            && !ConvertsOnSave(r.meta, postId, req, false)
            && SaveEffect(r, postId, content', req, false, conv) == r
  {
    var r := SaveEffect(s, postId, content, req, false, conv);
    if ConvertsOnSave(s.meta, postId, req, false) {
      assert MetaOf(r.meta, postId) == FlagValue(NewFlag(req));
    }
    if Authorized(req) {
      assert r.cache - {postId} == r.cache;
    }
  }

  /** A post that never had a flag, saved with the hidden field left as the
      toggle control rendered it under the default policy ("0"), has its
      body run through the Markdown-to-HTML converter: the unset flag "" and
      the new flag "0" differ as strings. */
  lemma UnsetFlagSaveConverts(s: Stores, postId: int, content: string, req: SaveRequest, conv: Converters)
    requires postId !in s.meta
    requires Authorized(req)
    requires req.submitted == Some(FlagValue(UseMarkdownForPost(s.meta, Some(postId), false)))
    ensures ConvertsOnSave(s.meta, postId, req, false)
    ensures var r := SaveEffect(s, postId, content, req, false, conv);
            postId in r.body && r.body[postId] == conv.parsedown(content)
  {
    assert !UseMarkdownForPost(s.meta, Some(postId), false);
    assert !NewFlag(req);
  }

  // ---------------------------------------------------------------------
  // Rendering
  // ---------------------------------------------------------------------

  /** The displayed content and the cache afterwards. */
  datatype Rendered = Rendered(output: string, cache: map<int, string>)

  /** `$post ? $post->ID : 0`: the transient key suffix of a render. */
  function PostIdOf(post: Option<int>): (id: int)
    ensures post.Some? ==> id == post.value
    ensures id != 0 ==> post.Some?
  {
    if post.Some? then post.value else 0
  }

  /** A render serves the cached entry only for a nonzero id whose entry is
      truthy. */
  predicate ServedFromCache(cache: map<int, string>, id: int)
    ensures ServedFromCache(cache, id) ==> id != 0 && id in cache && cache[id] != "" && cache[id] != "0"
  {
    id != 0 && id in cache && IsTruthy(cache[id])
  }

  /** `parseTheContent`: pass through and evict when the post is not
      Markdown; otherwise serve the cached rendering, or convert with
      Parsedown and cache the result. */
  function RenderContent(content: string, cache: map<int, string>, meta: map<int, string>, post: Option<int>,
                         autoenable: bool, parsedown: string -> string): (r: Rendered)
    ensures r.cache - {PostIdOf(post)} == cache - {PostIdOf(post)}
    ensures !UseMarkdownForPost(meta, post, autoenable) ==> r.output == content && PostIdOf(post) !in r.cache
    ensures UseMarkdownForPost(meta, post, autoenable) ==>
              PostIdOf(post) in r.cache && r.cache[PostIdOf(post)] == r.output
    ensures UseMarkdownForPost(meta, post, autoenable) && ServedFromCache(cache, PostIdOf(post)) ==>
              r == Rendered(cache[PostIdOf(post)], cache)
    ensures UseMarkdownForPost(meta, post, autoenable) && r.output != parsedown(content) ==>
              ServedFromCache(cache, PostIdOf(post)) && r.cache == cache
    ensures post == None ==> r.output == if autoenable then parsedown(content) else content
  {
    var postId := PostIdOf(post);
    if UseMarkdownForPost(meta, post, autoenable) then
      if ServedFromCache(cache, postId) then Rendered(cache[postId], cache)
      else
        var output := parsedown(content);
        assert cache[postId := output] - {postId} == cache - {postId};
        Rendered(output, cache[postId := output])
    else
      Rendered(content, cache - {postId})
  }

  /** Rendering again with nothing saved in between shows the same output
      and leaves the cache as it was; the second render converts nothing
      when the first one left a servable entry. */
  lemma RenderIsStable(content: string, cache: map<int, string>, meta: map<int, string>, post: Option<int>,
                       autoenable: bool, parsedown: string -> string)
    ensures var first := RenderContent(content, cache, meta, post, autoenable, parsedown);
            var second := RenderContent(content, first.cache, meta, post, autoenable, parsedown);
            && second == first
            && (UseMarkdownForPost(meta, post, autoenable) && PostIdOf(post) != 0 && IsTruthy(first.output) ==>
                  ServedFromCache(first.cache, PostIdOf(post)))
  {
    var first := RenderContent(content, cache, meta, post, autoenable, parsedown);
    var id := PostIdOf(post);
    if !UseMarkdownForPost(meta, post, autoenable) {
      assert first.cache - {id} == first.cache;
    } else if !ServedFromCache(cache, id) {
      assert first.cache[id := parsedown(content)] == first.cache;
    }
  }

  /** The transient of an unresolved post (key suffix 0) may be written but
      is never served: what such a render shows does not depend on the
      cache at all. */
  lemma IdZeroIgnoresCache(content: string, cache1: map<int, string>, cache2: map<int, string>,
                           meta: map<int, string>, post: Option<int>, autoenable: bool, parsedown: string -> string)
    requires PostIdOf(post) == 0
    ensures RenderContent(content, cache1, meta, post, autoenable, parsedown).output
            == RenderContent(content, cache2, meta, post, autoenable, parsedown).output
  {
  }

  /** Once a save passes its checks, the next render of that post is not
      served from a stale transient: it shows the content converted with
      Parsedown exactly when the saved mode is Markdown, and the content
      itself otherwise. */
  lemma SaveThenRender(s: Stores, postId: int, content: string, req: SaveRequest, conv: Converters,
                       shown: string, autoenable: bool)
    requires Authorized(req)
    ensures var r := SaveEffect(s, postId, content, req, false, conv);
            && !ServedFromCache(r.cache, postId)
            && RenderContent(shown, r.cache, r.meta, Some(postId), autoenable, conv.parsedown).output
               == if NewFlag(req) then conv.parsedown(shown) else shown
  {
    SaveSetsMode(s, postId, content, req, conv, autoenable);
  }

  // ---------------------------------------------------------------------
  // The controller
  // ---------------------------------------------------------------------

  /** The plugin instance: the injected converters, the host stores it reads
      and writes, and the re-entrancy guard of `saveMarkdownMeta` (a static
      in the source, one per process, here one per instance). */
  class Plugin {
    const conv: Converters
    var meta: map<int, string>
    var cache: map<int, string>
    var body: map<int, string>
    var recursion: bool
    /** Number of converter calls so far (parsedown or htmlConverter). */
    ghost var conversions: nat

    function State(): Stores
      reads this
    {
      Stores(meta, cache, body)
    }

    constructor(conv: Converters, stores: Stores)
      ensures this.conv == conv && State() == stores && !recursion && conversions == 0
    {
      this.conv := conv;
      meta, cache, body := stores.meta, stores.cache, stores.body;
      recursion := false;
      conversions := 0;
    }

    /** `saveMarkdownMeta`, on `save_post`. The body update inside it fires
        `save_post` again (see UpdatePost); that nested call finds the guard
        held, so one outer save converts at most once and leaves the guard
        as it found it. */
    method SaveMarkdownMeta(postId: int, postContent: string, req: SaveRequest)
      modifies this
      decreases if recursion then 0 else 2
      ensures State() == SaveEffect(old(State()), postId, postContent, req, old(recursion), conv)
      ensures recursion == old(recursion)
      ensures conversions == old(conversions) + if ConvertsOnSave(old(meta), postId, req, old(recursion)) then 1 else 0
    {
      if req.autosave {
        return;
      }
      if !req.nonceValid {
        return;
      }
      if !req.canEdit {
        return;
      }
      cache := cache - {postId};
      var useMarkdownOld := MetaOf(meta, postId);
      var useMarkdown := !IsEmpty(req.submitted);
      if useMarkdownOld != FlagValue(useMarkdown) {
        if !recursion {
          recursion := true;
          var content;
          if useMarkdown {
            content := conv.htmlConverter(conv.wpautop(postContent));
          } else {
            content := conv.parsedown(postContent);
          }
          conversions := conversions + 1;
          UpdatePost(postId, content, req);
          meta := meta[postId := FlagValue(useMarkdown)];
          recursion := false;
        }
      }
    }

    /** `wp_update_post` with the converted body: writes the body, then
        fires `save_post`, which re-enters SaveMarkdownMeta with the same
        request while the guard is held. */
    method UpdatePost(postId: int, content: string, req: SaveRequest)
      requires recursion
      modifies this
      decreases 1
      ensures recursion && conversions == old(conversions)
      ensures meta == old(meta) && body == old(body)[postId := content]
      ensures cache == if Authorized(req) then old(cache) - {postId} else old(cache)
    {
      body := body[postId := content];
      SaveMarkdownMeta(postId, content, req);
    }

    /** `parseTheContent`, on `the_content`. */
    method ParseTheContent(content: string, post: Option<int>, autoenable: bool) returns (output: string)
      modifies this`cache, this`conversions
      ensures Rendered(output, cache) == RenderContent(content, old(cache), meta, post, autoenable, conv.parsedown)
      ensures conversions == old(conversions) +
                if UseMarkdownForPost(meta, post, autoenable) && !ServedFromCache(old(cache), PostIdOf(post)) then 1 else 0
    {
      var postId := if post.Some? then post.value else 0;
      if UseMarkdownForPost(meta, post, autoenable) {
        if postId != 0 && postId in cache && IsTruthy(cache[postId]) {
          return cache[postId];
        }
        output := conv.parsedown(content);
        conversions := conversions + 1;
        cache := cache[postId := output];
      } else {
        cache := cache - {postId};
        output := content;
      }
    }
  }

  /** Two renders of the same post with no save in between: the same
      output, and when the first left a servable entry, one conversion in
      all. */
  method RenderTwice(p: Plugin, content: string, post: Option<int>, autoenable: bool)
    returns (first: string, second: string)
    modifies p`cache, p`conversions
    ensures first == second
    ensures PostIdOf(post) != 0 && IsTruthy(first) ==> p.conversions <= old(p.conversions) + 1
  {
    first := p.ParseTheContent(content, post, autoenable);
    second := p.ParseTheContent(content, post, autoenable);
    RenderIsStable(content, old(p.cache), p.meta, post, autoenable, p.conv.parsedown);
  }
}
