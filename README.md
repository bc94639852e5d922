# Parsedown Party: the markdown toggle controller

Parsedown Party is a WordPress plugin that lets each post be written either
in Markdown or in WordPress's native HTML. A flag in post meta
(`kizu514_use_markdown`) records the choice. Saving a post with the flag
flipped converts the stored body: HTML to Markdown when enabling, Markdown to
HTML when disabling. Rendering a Markdown post converts it to HTML with
ParsedownExtra and keeps the result in a transient (`kizu514_use_markdown_<id>`).

This project models the controller class `Parsedownparty\Plugin` in
`inc/class-plugin.php`:

- `wrappers.dfy` holds `Option`, for a post that may not resolve and a form
  field that may be missing.
- `php.dfy` holds the PHP coercions the controller depends on, over the
  strings WordPress stores. These are the `(int)` cast and `absint`, `empty()`
  on a request field, and string truthiness.
- `plugin.dfy` holds the rest:
  - the pure decisions as functions over the stores: flag resolution, the
    editor-settings filter, the effect of a save and of a render;
  - lemmas about those functions;
  - the class `Plugin`, whose methods update the three stores in place and
    set and clear the re-entrancy guard.

The three host stores are maps keyed by post id: flag meta, transients and
post bodies. A transient key is the meta key plus `_<id>`, so one key exists
per id. The converters (`ParsedownExtra::parse`, League's
`HtmlConverter::convert`) and WordPress's `wpautop` are function values that
the constructor receives. The request context is passed in explicitly:

- the resolved post, as an optional id;
- whether the save is an autosave;
- whether the nonce is present and valid for the post;
- whether the user can edit the post;
- the submitted flag field;
- the current admin page;
- the `parsedownparty_autoenable` policy value.

Behaviour of the code as written that the model keeps and proves:

- A post that never had a flag is saved with the toggle's hidden field at
  `"0"` (its value under the default policy). The unset flag reads as `""`.
  Because `"" !== "0"`, the body is run through the Markdown-to-HTML converter
  even though the mode stays off (`UnsetFlagSaveConverts`).
- The body update inside the save fires `save_post` again. That nested call
  finds the guard held, so it evicts the transient and writes neither body
  nor flag, because `update_post_meta` sits inside the guarded block.

## Model

| member | source | states |
|---|---|---|
| Php.SkipSpaceDropsWhitespace | inc/class-plugin.php:83 | the `(int)` cast skips exactly the leading PHP whitespace: what remains is a suffix, everything dropped is whitespace, and what remains does not start with whitespace |
| Php.LeadingDigits | inc/class-plugin.php:83 | the digits the cast reads are all decimal digits |
| Php.LeadingDigitsIsLongestRun | inc/class-plugin.php:83 | the number read by the cast is the longest run of digits at the start: a prefix, followed by a non-digit or the end |
| Php.IntVal | inc/class-plugin.php:83 | the `(int)` cast of a meta value: `""` and a string starting with anything but whitespace, a sign or a digit give 0; a leading digit gives a non-negative number and a leading minus a non-positive one |
| Php.AbsInt | inc/class-plugin.php:83 | `absint` is 0 exactly when the cast is 0 and 1 exactly when the cast is 1 or -1 |
| Php.IsEmpty | inc/class-plugin.php:148 | `empty()` of a request field holds exactly when the field is missing or its string is falsy |
| Php.IsTruthy | inc/class-plugin.php:225 | the truth test on a cached string: every string of two or more characters is truthy, and a one-character string is truthy unless it is `"0"` |
| Php.DecimalValueOfDigit | inc/class-plugin.php:83 | a single digit followed by a non-digit is read as that digit |
| Php.AbsIntOfDigit | inc/class-plugin.php:83 | `absint` of a one-digit string is that digit, so `"1"` reads as 1 and `"0"` as 0 |
| Php.AbsIntOfSignedDigit | inc/class-plugin.php:83 | leading whitespace, a sign and trailing text do not change the digit read (`absint(" -1px") === 1`) |
| Php.SkipSpacePrefix | inc/class-plugin.php:83 | skipping whitespace from whitespace followed by a non-space string leaves that string |
| ParsedownParty.FlagValueReadsBack | inc/class-plugin.php:164 | the flag `update_post_meta` writes reads back as its mode: `absint` 1 exactly when enabled, `"0"` exactly when disabled, never unset |
| ParsedownParty.MetaOf | inc/class-plugin.php:81 | `get_post_meta(..., true)` returns the stored string for a post that has one, and a non-empty reading implies a stored value |
| ParsedownParty.FlagValue | inc/class-plugin.php:164 | the flag written is a single digit, truthy exactly when Markdown is enabled |
| ParsedownParty.GetPost | inc/class-plugin.php:239-247 | the current post wins; with no current post the result is whatever the legacy lookup by global id returns |
| ParsedownParty.UseMarkdownForPost | inc/class-plugin.php:75-97 | a flag with `absint` 1 enables, the exact string `"0"` disables, and every other case yields the autoenable policy: no post, no flag, or any other stored value such as `"2"`; so the result differs from the policy only when the stored flag has `absint` 1 or is `"0"` |
| ParsedownParty.StoredFlagOverridesPolicy | inc/class-plugin.php:83-88 | once a flag has been written for a post, the post's mode is that flag under either policy |
| ParsedownParty.FlagResolves | inc/class-plugin.php:83-88 | a post whose stored flag equals the normalised flag of a mode resolves to that mode for every policy value |
| ParsedownParty.MarkdownEditing | inc/class-plugin.php:179 | the editor is reconfigured only on `post.php` or `post-new.php` for a post whose mode is Markdown |
| ParsedownParty.ParseEditorSettings | inc/class-plugin.php:177-186 | on `post.php`/`post-new.php` with Markdown on, `wpautop`, `media_buttons`, `tinymce` and `quicktags` are false and every other key is unchanged; otherwise the settings come back unchanged |
| ParsedownParty.ParseEditorSettingsIdempotent | inc/class-plugin.php:177-186 | applying the filter twice gives the same settings as applying it once |
| ParsedownParty.Authorized | inc/class-plugin.php:136-144 | a save proceeds only when it is not an autosave, the nonce is valid for the post and the user may edit it |
| ParsedownParty.NewFlag | inc/class-plugin.php:148 | the requested mode is Markdown exactly when the submitted field is present and truthy |
| ParsedownParty.ConvertBody | inc/class-plugin.php:153-157 | enabling converts `wpautop(body)` with the HTML converter; disabling converts the body with Parsedown |
| ParsedownParty.ConvertsOnSave | inc/class-plugin.php:149-151 | a conversion needs an authorized save and a free guard, and an authorized save with a free guard on a post without a flag always converts |
| ParsedownParty.SaveEffect | inc/class-plugin.php:135-168 | an autosave, a missing or invalid nonce, or a missing capability changes nothing; otherwise the transient is evicted; no other post is touched; flag and body change only when a conversion runs |
| ParsedownParty.SaveSetsMode | inc/class-plugin.php:147-164 | after an authorized outer save the post resolves to the submitted mode (non-empty field means on) under either policy |
| ParsedownParty.WrittenFlagConvertsIffModeFlips | inc/class-plugin.php:147-149 | for a post whose flag an earlier save wrote, a save converts exactly when the submitted mode differs from the mode the post shows, under either policy |
| ParsedownParty.SaveConvertsBody | inc/class-plugin.php:153-164 | a converting save writes `htmlConverter(wpautop(body))` when enabling, `parsedown(body)` when disabling, and the normalised new flag |
| ParsedownParty.NestedSaveOnlyEvicts | inc/class-plugin.php:150-165 | a save made while the guard is held only evicts the transient: no conversion, no body write, no meta write |
| ParsedownParty.SaveIsStable | inc/class-plugin.php:147-149 | repeating a save with the same request converts nothing and changes nothing more |
| ParsedownParty.UnsetFlagSaveConverts | inc/class-plugin.php:147-156 | an unset flag with the hidden field at its default `"0"` counts as a change and runs the Markdown-to-HTML conversion |
| ParsedownParty.PostIdOf | inc/class-plugin.php:221 | the transient key suffix is the resolved post's id, and a nonzero suffix always belongs to a resolved post |
| ParsedownParty.ServedFromCache | inc/class-plugin.php:225 | a cached entry is served only under a nonzero id, and only when it exists and is neither `""` nor `"0"` |
| ParsedownParty.RenderContent | inc/class-plugin.php:219-234 | not Markdown: output is the content and the post's transient is gone; Markdown with a nonzero id and a truthy entry: that entry is returned and the cache is untouched; otherwise the output is `parsedown(content)`; after a Markdown render the transient holds exactly the output; other keys untouched |
| ParsedownParty.RenderIsStable | inc/class-plugin.php:223-229 | a second render with no save in between gives the same output and cache, and is served from the cache when the id is nonzero and the first output truthy |
| ParsedownParty.IdZeroIgnoresCache | inc/class-plugin.php:221-228 | for an unresolved post (key suffix 0) the rendered output is the same whatever the cache holds, so that key is written but never served |
| ParsedownParty.SaveThenRender | inc/class-plugin.php:146 | after an authorized save the post's transient cannot be served, and the next render shows `parsedown(content)` exactly when the saved mode is Markdown, and the content itself otherwise |
| ParsedownParty.Plugin.constructor | inc/class-plugin.php:63-66 | the instance keeps the injected converters, starts with the guard free |
| ParsedownParty.Plugin.SaveMarkdownMeta | inc/class-plugin.php:135-168 | the stores change as SaveEffect says, the guard is as it was on entry, and at most one conversion runs per outer save, including the re-entrant call |
| ParsedownParty.Plugin.UpdatePost | inc/class-plugin.php:158-163 | writing the converted body re-enters the save handler, which only evicts the transient |
| ParsedownParty.Plugin.ParseTheContent | inc/class-plugin.php:219-234 | output and cache are as RenderContent says; a conversion is counted exactly when the post is Markdown and no servable entry exists |
| ParsedownParty.RenderTwice | inc/class-plugin.php:224-229 | two renders without a save agree, and convert at most once when the first left a servable entry |

## Left out

- `createMarkdownLink` (inc/class-plugin.php:106-127) is not modelled: it only emits the toggle markup and the nonce field. The value of its hidden field, `(int) $use_markdown`, is used as a submitted value in `UnsetFlagSaveConverts`.
- `overrideEditor` (inc/class-plugin.php:193-209) is not modelled: it only enqueues CodeMirror and its inline script.
- `init` and `hooks` (inc/class-plugin.php:35-57) are not modelled: they build the singleton and register WordPress hooks. The model starts from a constructed `Plugin`.
- ParsedownExtra, League's HtmlConverter and `wpautop` are foreign code. They are arbitrary functions from string to string, and nothing is assumed about them. A conversion failure (an exception) is not modelled.
- Nonce verification, `current_user_can` and `DOING_AUTOSAVE` are booleans in the request, as is the presence of the nonce field.
- Php.IntVal: does not model PHP's float-shaped numeric strings (`"10e-1"` and `"0.1e1"` cast to 1 in PHP, and to 10 and 0 here), or the saturation at `PHP_INT_MAX`. Neither changes whether an integer string reads as exactly 1.
- Meta values are strings, which is what WordPress returns for scalar meta. Serialized arrays and objects in the meta are not modelled.
- The re-entrancy guard is a field of the instance rather than a static of the method. There is one instance per process, so this is the same thing.
- `wp_update_post` fires other plugins' `save_post` handlers and other hooks too. Only the re-entry into this handler is modelled.
- Post bodies are a plain map, and `UpdatePost` writes the converted text exactly as the converter produced it. In WordPress, `wp_update_post` (inc/class-plugin.php:158-163) goes through `wp_insert_post`. That function runs the `content_save_pre` filters, which include kses for users without `unfiltered_html`, and it unslashes the content. The plugin passes content it never slashed, so backslashes in the converted Markdown can be lost. The model does not capture either change.
- Transient expiry is not modelled because none is set. A missing transient reads like a falsy one (`get_transient` returns `false`).
