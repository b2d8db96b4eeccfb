# yui3-jsonp: the JSONP request lifecycle in Dafny

`Y.jsonp(url, c)` sends a JSONP request. It reads its second argument as a success handler or as a
configuration object (`success`, `failure`, `pattern`). It derives a callback name ("proxy") from a
generated guid and rewrites the URL so that the first `{callback}` becomes `YUI.<proxy>`. It stores
the success handler in the global slot `YUI[proxy]` and hands the URL to the YUI loader. When the
loader reports back, the completion callback deletes the slot, removes the script node through
`Y.jsonp.clean`, and calls the failure handler with the URL if the load failed.

The model has one Dafny module per concern of `js/jsonp.js`:

- `Arguments` (arguments.dfy): JavaScript values of the shapes the code tells apart, and the
  normalisation into `Config(success, failure, pattern)`.
- `Proxy` (proxy.dfy): `guid.replace(/-/g, '_')`.
- `Template` (template.dfy): the default pattern `/{callback}/i` as a leftmost, ASCII
  case-insensitive search. It also covers the expansion that `String.prototype.replace` applies to a
  string replacement (`$$`, `$&`, `` $` ``, `$'`), an abstract matcher for a caller's RegExp, and the
  single replacement.
- `Scripts` (scripts.dfy): the specification of `clean`, which removes the last `src` equal to the
  URL.
- `Jsonp` (jsonp.dfy): class `Dispatcher`. Its fields are the proxy slots (`registry`), the
  `head > script[src]` sources (`scripts`), the URLs given to the loader (`loads`) and the static
  `Y.jsonp.pattern` (`defaultPattern`). A ghost set holds the requests in flight. `Issue`,
  `Complete` and `Clean` change this state, and `Clean` is a backward loop with an early exit.
  The object invariant `Valid` says that the slots are exactly the proxies of the pending requests
  and that each slot holds its request's success handler.
- `Wrappers` (wrappers.dfy): `Option`.

The collaborators are parameters. The guid is an argument of `Issue`. A caller's RegExp objects are
a `Matcher` function that returns the leftmost match. The loader's outcome is the `loadOk` argument
of `Complete`. An empty string stands for every falsy `url`, because all of them take the same
early return.

`clean` warns only when `Y.all` returns nothing (js/jsonp.js:98-99); when no `src` matches, it
changes nothing and logs nothing.

## Model

| member | source | states |
|---|---|---|
| `Arguments.Normalise` | js/jsonp.js:35-42 | a primitive gives two no-ops and the default pattern; a function is the success handler; otherwise `success` and `failure` are used exactly when they hold functions; `pattern` is used exactly when it is a RegExp, else the current default |
| `Arguments.NormaliseConfigObject` | js/jsonp.js:35-42 | a configuration object whose fields are well shaped is taken as given, whatever the default: normalisation inverts building such an object |
| `Arguments.BareFunctionIsSuccess` | js/jsonp.js:37-41 | `Y.jsonp(url, fn)` gets the same handlers and pattern as `Y.jsonp(url, {success: fn})` whose object also carries `fn`'s own properties, since `failure` and `pattern` are read off the function; a function without own properties gives its success handler, a no-op failure handler and the default pattern |
| `Proxy.ReplaceHyphens` | js/jsonp.js:43 | the proxy name has the guid's length, contains no `-`, and every `-` becomes `_` while every other character stays in place |
| `Proxy.HyphenFreeUnchanged` | js/jsonp.js:43 | a guid without `-` is its own proxy name |
| `Template.IsPlaceholderCases` | js/jsonp.js:73 | the pattern `/{callback}/i` accepts exactly the ten-character strings whose every character is the placeholder's own or the upper-case form of one of its letters |
| `Template.FindFrom` | js/jsonp.js:73 | the search returns the leftmost position at or after the start where `{callback}` matches case-insensitively, or none when there is no match there |
| `Template.FindPlaceholder` | js/jsonp.js:73 | a match that is found lies wholly inside the URL |
| `Template.Expand` | js/jsonp.js:46 | the replacement text `String.prototype.replace` inserts; a replacement string without `$` is inserted literally |
| `Template.ReplaceSpan` | js/jsonp.js:46 | with a replacement without `$`, the matched text is replaced by it and the text before and after is kept |
| `Template.ReplaceFirstPlaceholderSpec` | js/jsonp.js:46 | a URL without the placeholder is unchanged; otherwise the result is the text before the first occurrence, which holds none, then the replacement, then the rest, later occurrences included, untouched |
| `Template.ReplaceFirstPlaceholder` | js/jsonp.js:46 | with a replacement without `$`, a URL without the placeholder is unchanged, and otherwise the first occurrence is replaced with the text before and after it kept |
| `Template.PlaceholderConsumed` | js/jsonp.js:46 | after the rewrite with `"YUI." + proxy`, no occurrence of the placeholder starts before the end of the inserted `YUI.` |
| `Template.NoPlaceholderLeft` | js/jsonp.js:46 | when the URL holds exactly one placeholder and the proxy has no `$` and no `{`, the rewritten URL holds no placeholder anywhere |
| `Template.Rewrite` | js/jsonp.js:41-46 | the default pattern gives the single placeholder replacement; a caller's RegExp with no match leaves the URL unchanged, and a match is replaced with the text around it kept |
| `Scripts.LastIndex` | js/jsonp.js:91-96 | the backward scan meets the last `src` equal to the URL first: nothing after it matches, and there is none exactly when the URL is absent |
| `Scripts.RemoveLast` | js/jsonp.js:91-96 | with no `src` equal to the URL the list is unchanged; otherwise it is the list without the last element equal to the URL |
| `Scripts.RemoveLastCount` | js/jsonp.js:91-96 | with no match the script list is unchanged; with a match it loses exactly one element, one copy of the URL |
| `Scripts.RemoveLastOrder` | js/jsonp.js:91-96 | the element removed is the last match; the elements before it stay in place, and the ones after it move up one place in the same order |
| `Jsonp.InsertConsistent` | js/jsonp.js:49 | storing the success handler under a fresh hyphen-free proxy keeps slots and pending requests in one-to-one correspondence |
| `Jsonp.RemoveConsistent` | js/jsonp.js:55 | deleting the slot of a pending request keeps that correspondence for the remaining requests |
| `Jsonp.Dispatcher.constructor` | js/jsonp.js:73 | initially no slot is used and no request is pending; the default pattern is `{callback}` |
| `Jsonp.Dispatcher.Issue` | js/jsonp.js:29-53 | an empty URL changes nothing and returns nothing; otherwise the slot `proxy` gets the success handler with every other slot kept, and the rewritten URL is loaded once and its node appended; with the default pattern and a `$`-free guid the URL is the original with the first placeholder replaced by `YUI.` + proxy |
| `Jsonp.Dispatcher.Complete` | js/jsonp.js:54-60 | deletes exactly the request's slot, cleans up its script node, and calls the failure handler exactly once, with the rewritten URL, if and only if the load failed; it never calls the success handler |
| `Jsonp.Dispatcher.Clean` | js/jsonp.js:84-101 | the script list becomes the list without its last `src` equal to the URL, or stays the same when there is none |
| `Jsonp.IssueThenComplete` | js/jsonp.js:49-60 | a request issued and then completed leaves the slots, the pending requests, the script list and the default pattern as they were, adds its rewritten URL once to the loads, and calls the failure handler with that URL exactly when the load failed |

## Left out

- The YUI loader (`YUI({modules: …}).use(…)`, js/jsonp.js:53-54): it loads scripts over the network, asynchronously. `Issue` records the URL it is handed and appends the node it creates; `Complete` takes the outcome as `loadOk`.
- `Y.guid()`: a foreign generator whose uniqueness is assumed. The guid is a parameter.
- Jsonp.Dispatcher.Issue: requires the proxy name to be a fresh slot name. This is assumed, and it rests on the guid's format as well as its uniqueness, because replacing `-` by `_` is not one-to-one (`a-b` and `a_b` give the same proxy). The overwrite of an existing slot by a colliding proxy is not covered.
- Jsonp.Dispatcher.Complete: requires the request to be pending, because the loader calls each completion callback once. A second completion of the same request is not covered.
- `Y.all` and DOM nodes: the document is the list of `src` values of `head > script[src]`. The test that `Y.all` returned something, and its warning (js/jsonp.js:89, 98-99), depend on the selector and are not modelled.
- A script node's `src` is taken to read back exactly as the string handed to the loader. A browser reports the resolved, absolute URL, so for a relative or re-encoded URL the comparison at js/jsonp.js:93 fails and the node stays; the model does not capture that.
- `Y.log`: logging never affects control flow.
- A caller's RegExp is abstracted as its leftmost match. A RegExp with the `g` flag, which replaces every match, is not modelled, and neither are `$n` references to capturing groups.
- Properties inherited through the prototype chain: only own properties of the second argument are looked up.
- A truthy `url` that is not a string: `url.replace` would throw, and the model's `url` is a string.
- The remote script calling `YUI[proxy](data)`, and requests interleaving in the event loop: calls are modelled as a sequence of `Issue` and `Complete` operations.
- The chainable `return this`: it has no behavioural content.
- The `YUI` global's other properties: the registry holds only the proxy slots.
