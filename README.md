# gwt-pushstate: the push-state historian and the hyperlink delegate

A Dafny model of the two pieces of gwt-pushstate that hold logic:

- **PushStateHistorianImpl** (module `Historian`, class `PushStateHistorian`) keeps the
  application's current history token. Incoming tokens are normalised: one leading slash
  goes, then the mount point (the relative path) goes with one slash after it. The result
  is compared with the current token, tolerating one trailing slash on either side. Only a
  real change updates the token. Then `newItem` writes one push or replace entry whose URL
  is the relative path followed by the token, and may fire a change event. A popstate event
  fires an event on a change and never writes history. Start-up always writes one replace.
- **HyperlinkPushStateDelegate** (module `Hyperlink`, class `HyperlinkDelegate`) gives a
  link its href, built from the relative path and the target token with a slash in front.
  It drops hovers that stay inside the widget. It fires every other event on the widget.
  A click without ctrl then also calls the historian's `newItem(target, true)` and
  prevents the browser's own navigation.

The browser is modelled by one ordered log on each object. The historian's `outputs` records
every pushState and replaceState as `Write(Push(url, token))` or `Write(Replace(url, token))`,
every ValueChangeEvent fired as `ValueChange(value)`, and every event passed on to the
popstate listener installed before the historian's as `Chained(event)`. The delegate's
`effects` records, in order, the native events fired, the historian `newItem` calls and the
preventDefault calls.

The token field starts out null (`None`). Java renders that null as the text "null" in
`token + "/"`. So while the token is null, only the normalised input "null/" counts as
unchanged. A start-up location that normalises to "null/" therefore leaves the token null,
and the first replace then carries a null token with the URL relative path + "null"
(`MatchesNullToken`, the constructor's contract).

Two consequences of the code that are easy to miss:

- Normalisation is not idempotent. With relative path "/app/", the input "/app/app/x"
  becomes "app/x", and "app/x" becomes "x". A history entry stores the normalised token.
  Going back to that entry normalises it again, so the token becomes "x" and an event fires
  (`StripRelativePathNotIdempotent`). `StripRelativePathFixedPoint` states exactly which
  tokens survive a second normalisation.
- A popstate event never writes history. It only updates the token and fires an event when
  the token changed.

## Model

| member | source | states |
|---|---|---|
| Historian.NormalizeRelativePath | src/main/java/com/wallissoftware/pushstate/client/PushStateHistorianImpl.java:50-51 | the relative path ends with "/"; a path already ending in "/" is kept, any other gets "/" appended, and null becomes "/" |
| Historian.StripStartSlash | src/main/java/com/wallissoftware/pushstate/client/PushStateHistorianImpl.java:131-133 | at most one leading "/" is removed: the input is "/" + result when it starts with "/", and is the result otherwise |
| Historian.StripRelativePath | src/main/java/com/wallissoftware/pushstate/client/PushStateHistorianImpl.java:135-143 | the result is a suffix of the input; after one leading "/" goes, the relative path without its own leading "/" is removed if it is a prefix, together with one "/" right after it; otherwise nothing else changes |
| Historian.StripRelativePathOfUrl | src/main/java/com/wallissoftware/pushstate/client/PushStateHistorianImpl.java:135-143 | the URL written for a token (relative path + token) normalises back to that token when the token has no leading "/" |
| Historian.StripRelativePathOfMountedToken | src/main/java/com/wallissoftware/pushstate/client/PushStateHistorianImpl.java:135-143 | the token prefixed by the mount point without its leading "/" also normalises back to the token |
| Historian.StripRelativePathExamples | src/main/java/com/wallissoftware/pushstate/client/PushStateHistorianImpl.java:135-143 | with relative path "/app/", both "/app/foo/bar" and "app/foo/bar" normalise to "foo/bar" |
| Historian.StripRelativePathFixedPoint | src/main/java/com/wallissoftware/pushstate/client/PushStateHistorianImpl.java:135-143 | a token is unchanged by normalisation if and only if it has no leading "/" and does not start with the non-empty mount point |
| Historian.StripRelativePathNotIdempotent | src/main/java/com/wallissoftware/pushstate/client/PushStateHistorianImpl.java:135-143 | normalising twice can differ from normalising once: "/app/app/x" gives "app/x", which gives "x", and the two do not match |
| Historian.Matches | src/main/java/com/wallissoftware/pushstate/client/PushStateHistorianImpl.java:168-172 | the slash-tolerant comparison: equal, or one is the other plus "/", with a null token rendered as "null"; a token matches itself, and matching values differ in length by at most one |
| Historian.MatchesNonNull | src/main/java/com/wallissoftware/pushstate/client/PushStateHistorianImpl.java:168-172 | against a non-null token, a value matches exactly when it equals the token or one of the two is the other plus one "/"; matching values differ in length by at most one; every token matches itself and its slash variants |
| Historian.MatchesSymmetric | src/main/java/com/wallissoftware/pushstate/client/PushStateHistorianImpl.java:168-172 | with a non-null token, the comparison is symmetric |
| Historian.MatchesNullToken | src/main/java/com/wallissoftware/pushstate/client/PushStateHistorianImpl.java:168-172 | against the initial null token, only "null/" matches |
| Historian.MatchesExamples | src/main/java/com/wallissoftware/pushstate/client/PushStateHistorianImpl.java:168-172 | "a" matches "a/" both ways and does not match "b"; the tolerance is not transitive ("a//" ~ "a/" ~ "a" but not "a//" ~ "a") |
| Historian.PushStateHistorian.constructor | src/main/java/com/wallissoftware/pushstate/client/PushStateHistorianImpl.java:49-54 | the relative path is normalised; the token is the normalised location (or stays null if that is "null/"); the only output is one Replace carrying that token: no event, nothing chained |
| Historian.PushStateHistorian.GetToken | src/main/java/com/wallissoftware/pushstate/client/PushStateHistorianImpl.java:56-59 | returns the current token with no side effect |
| Historian.PushStateHistorian.NewItem | src/main/java/com/wallissoftware/pushstate/client/PushStateHistorianImpl.java:61-64 | as NewItemWith with replace off: a change writes exactly one Push, followed by the event when issueEvent is set |
| Historian.PushStateHistorian.NewItemWith | src/main/java/com/wallissoftware/pushstate/client/PushStateHistorianImpl.java:73-85 | a matching input changes nothing and outputs nothing; otherwise the token becomes the normalised input, exactly one Replace (if asked) or Push with URL relative path + token and payload token is written, and after it one event with the token fires exactly when issueEvent is set |
| Historian.PushStateHistorian.HandlePopState | src/main/java/com/wallissoftware/pushstate/client/PushStateHistorianImpl.java:97-115 | only a popstate whose state has a "token" key reaches OnPopState; every popstate, with or without a token, is then passed on to the old listener when there was one, after any change event; history is never written |
| Historian.PushStateHistorian.OnPopState | src/main/java/com/wallissoftware/pushstate/client/PushStateHistorianImpl.java:119-123 | the token changes as in setToken, and the only output is one event with the new token, exactly when it changed; no history write |
| Historian.PushStateHistorian.InitToken | src/main/java/com/wallissoftware/pushstate/client/PushStateHistorianImpl.java:125-129 | path + query is normalised into the token and exactly one Replace carrying the current token is output, changed or not; no event |
| Historian.PushStateHistorian.ReplaceState | src/main/java/com/wallissoftware/pushstate/client/PushStateHistorianImpl.java:145-150 | appends one Replace whose URL is the relative path followed by the token |
| Historian.PushStateHistorian.PushState | src/main/java/com/wallissoftware/pushstate/client/PushStateHistorianImpl.java:152-157 | appends one Push whose URL is the relative path followed by the token |
| Historian.PushStateHistorian.SetToken | src/main/java/com/wallissoftware/pushstate/client/PushStateHistorianImpl.java:159-166 | returns true exactly when the normalised input does not match the current token, which then becomes the normalised input; on false the token is unchanged |
| Historian.RepeatedNewItem | src/main/java/com/wallissoftware/pushstate/client/PushStateHistorianImpl.java:73-85 | two identical newItem calls have the effect of the first alone: the same token and exactly the same outputs (the one write and the optional event); the second writes nothing and fires nothing |
| Historian.PushThenPop | src/main/java/com/wallissoftware/pushstate/client/PushStateHistorianImpl.java:97-123 | pushing a normalised token and popping back to it changes nothing; popping to another normalised token makes it current with exactly one event; a state without a token changes nothing; the outputs are exactly the push, then the two events |
| Historian.PopThenChain | src/main/java/com/wallissoftware/pushstate/client/PushStateHistorianImpl.java:109-112 | with an earlier popstate listener, a popstate that changes the token outputs the change event first and the chained call after it; a popstate whose state is not an object is still chained |
| Hyperlink.EnsureHasRoot | src/main/java/com/wallissoftware/pushstate/client/ui/HyperlinkPushStateDelegate.java:40-43 | the result starts with "/"; a token already starting with "/" is returned unchanged, any other (including "") gets exactly one "/" in front |
| Hyperlink.EnsureHasRootIsSlashThenStripped | src/main/java/com/wallissoftware/pushstate/client/ui/HyperlinkPushStateDelegate.java:40-43 | EnsureHasRoot of a token is "/" followed by the historian's StripStartSlash of it, and applying it twice is applying it once |
| Hyperlink.HrefNormalizesToToken | src/main/java/com/wallissoftware/pushstate/client/ui/HyperlinkPushStateDelegate.java:35-36 | when the delegate and the historian use the same relative path (getRelativePath already ending in "/"), the href path (relative path + EnsureHasRoot(token)), read by the historian at start-up, normalises to the token without its leading "/"; proved for any non-empty relative path |
| Hyperlink.HyperlinkDelegate.constructor | src/main/java/com/wallissoftware/pushstate/client/ui/HyperlinkPushStateDelegate.java:26-28 | a new delegate has no target token, has set no href and has had no effects |
| Hyperlink.HyperlinkDelegate.SetTargetHistoryToken | src/main/java/com/wallissoftware/pushstate/client/ui/HyperlinkPushStateDelegate.java:30-38 | stores append(token) and sets href to relative path + EnsureHasRoot(stored token), so the href starts with the relative path followed by "/" |
| Hyperlink.HyperlinkDelegate.GetTargetHistoryToken | src/main/java/com/wallissoftware/pushstate/client/ui/HyperlinkPushStateDelegate.java:45-47 | returns the stored target token with no side effect |
| Hyperlink.SetThenGet | src/main/java/com/wallissoftware/pushstate/client/ui/HyperlinkPushStateDelegate.java:30-47 | after SetTargetHistoryToken(t), GetTargetHistoryToken returns append(t) |
| Hyperlink.HyperlinkDelegate.OnBrowserEvent | src/main/java/com/wallissoftware/pushstate/client/ui/HyperlinkPushStateDelegate.java:49-68 | a mouseover/mouseout whose related target is inside the widget has no effect; any other event is fired natively; a click without ctrl is then followed by newItem(target, true) and preventDefault, in that order; a ctrl-click or other event never calls newItem or preventDefault |

## Left out

- The super-dev-mode fallback that reads the token by splitting the state's JSON text (PushStateHistorianImpl.java:105-107): it depends on the platform's JSON rendering. A "token" key whose value is not a string, or is null, is not modelled; `PopState.TokenKey` always carries a string.
- The event bus: `addValueChangeHandler`, `fireEvent`, handler registration and fan-out are GWT library code. `ValueChange` outputs log each ValueChangeEvent.fire call. GWT skips a fire when no value-change handler type exists yet; that is not modelled.
- The JSON state object, `toNative` and the document title passed to pushState/replaceState: a history entry keeps only the URL and the token.
- Installing the popstate listener on the window: the previous listener is the constructor flag `hasOldHandler`, and `HandlePopState` is the listener itself.
- Reading the browser location: `Window.Location.getPath` and `getQueryString` are constructor parameters.
- `GWT.create(Historian.class)` and the static historian in the delegate: its `newItem` calls are logged as `Effect.NewItem`, not made on a `PushStateHistorian`.
- `CodeServerParameterHelper.append` and `PushStateHistorian.getRelativePath` are not part of this model: they are the delegate's constructor parameters `appendParameter` and `relativePath`.
- `DOM.eventGetType`, `isOrHasChild` and the null check on the related target are the fields of `BrowserEvent`; `DomEvent.fireNativeEvent` and `preventDefault` are effects.
- The Java assertion that the target token is not null: Dafny strings are never null. Null string inputs to the historian's methods are not modelled either.
