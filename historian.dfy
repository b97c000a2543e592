/**
 * The push-state historian: keeps the application's current history token in step
 * with the browser's HTML5 history stack. What it does to the outside world is one
 * ordered log of Outputs: every pushState/replaceState a Write, every
 * ValueChangeEvent.fire a ValueChange, every call of the previously installed
 * popstate listener a Chained.
 */
module Historian {
  import opened Wrappers
  import opened Strings

  /** One write to the browser's history: the URL shown and the token put in the state object. */
  datatype HistoryWrite =
    | Push(url: string, token: Option<string>)
    | Replace(url: string, token: Option<string>)

  /** One thing the historian does to the outside world, in the order it does them. */
  datatype Output =
    | Write(write: HistoryWrite)
    | ValueChange(value: string)
    | Chained(event: WindowEvent)

  /** The state object a popstate event carries, as far as the historian looks at it. */
  datatype PopState =
    | NotAnObject
    | NoTokenKey
    | TokenKey(token: string)

  /** An event delivered to the window's popstate listener. */
  datatype WindowEvent =
    | OtherEvent
    | PopStateEvent(state: PopState)

  /** The relative path fixed at construction: a missing (null) path becomes "/". */
  function NormalizeRelativePath(p: Option<string>): (r: string)
    ensures EndsWith(r, "/")
    ensures p.Some? && EndsWith(p.value, "/") ==> r == p.value
    ensures p.Some? && !EndsWith(p.value, "/") ==> r == p.value + "/"
    ensures p.None? ==> r == "/"
  {
    match p
    case Some(s) => if EndsWith(s, "/") then s else s + "/"
    case None => "/"
  }

  /** Removes one leading slash, if there is one. */
  function StripStartSlash(s: string): (r: string)
    ensures StartsWith(s, "/") ==> s == "/" + r
    ensures !StartsWith(s, "/") ==> r == s
  {
    RemoveStart(s, "/")
  }

  /**
   * Normalises an incoming token against the mount point: one leading slash goes;
   * then, if what is left starts with the relative path (itself without its leading
   * slash), that prefix goes together with one slash right after it.
   */
  function StripRelativePath(relativePath: string, p: string): (r: string)
    ensures |r| <= |p| && p[|p| - |r|..] == r
    ensures var t := StripStartSlash(p);
            var rel := StripStartSlash(relativePath);
            if !StartsWith(t, rel) then r == t
            else if StartsWith(t, rel + "/") then t == rel + "/" + r
            else t == rel + r
  {
    var rel := StripStartSlash(relativePath);
    var t := StripStartSlash(p);
    if StartsWith(t, rel) then
      assert StartsWith(t, rel + "/") ==> t[|rel|..] == "/" + t[|rel| + 1..];
      StripStartSlash(t[|rel|..])
    else
      t
  }

  /**
   * Slash-tolerant comparison of a normalised token with the current one. A null
   * current token compares equal to nothing but "null/", because Java renders the
   * null in `token + "/"` as the text "null".
   */
  predicate Matches(compare: string, token: Option<string>)
    ensures token == Some(compare) ==> Matches(compare, token)
    ensures Matches(compare, token) ==>
              |compare| <= |JavaText(token)| + 1 && |JavaText(token)| <= |compare| + 1
  {
    || token == Some(compare)
    || compare == JavaText(token) + "/"
    || token == Some(compare + "/")
  }

  /** A token matches one of its own slash variants and nothing further away. */
  lemma MatchesNonNull(c: string, t: string)
    ensures Matches(c, Some(t)) <==> c == t || c == t + "/" || t == c + "/"
    ensures Matches(c, Some(t)) ==> |c| == |t| || |c| == |t| + 1 || |t| == |c| + 1
    ensures Matches(t, Some(t)) && Matches(t + "/", Some(t)) && Matches(t, Some(t + "/"))
  {
  }

  /** The comparison is symmetric once there is a current token. */
  lemma MatchesSymmetric(a: string, b: string)
    ensures Matches(a, Some(b)) <==> Matches(b, Some(a))
  {
  }

  /** While the token is still null, only the text "null/" counts as unchanged. */
  lemma MatchesNullToken(c: string)
    ensures Matches(c, None) <==> c == "null/"
  {
  }

  /** "a" and "a/" are the same token, "a" and "b" are not; the tolerance is not transitive. */
  lemma MatchesExamples()
    ensures Matches("a", Some("a/")) && Matches("a/", Some("a")) && !Matches("a", Some("b"))
    ensures Matches("a//", Some("a/")) && Matches("a/", Some("a")) && !Matches("a//", Some("a"))
  {
    assert "a" + "/" == "a/";
    assert "a/" + "/" == "a//";
    assert "a" != "a/" && "a" != "a//" && "a//" + "/" != "a" && "a" + "/" != "a//";
  }

  /**
   * A token that went into a history URL comes back unchanged when that URL is
   * normalised, as long as the token itself does not start with a slash.
   */
  lemma StripRelativePathOfUrl(relativePath: string, t: string)
    requires !StartsWith(t, "/")
    ensures StripRelativePath(relativePath, relativePath + t) == t
  {
    var rel := StripStartSlash(relativePath);
    var u := StripStartSlash(relativePath + t);
    if StartsWith(relativePath, "/") {
      assert relativePath + t == "/" + (rel + t);
      assert StartsWith(relativePath + t, "/");
      assert u == rel + t;
    } else {
      assert (relativePath + t)[..|relativePath|] == relativePath;
      if relativePath == [] {
        assert relativePath + t == t;
      } else {
        assert (relativePath + t)[..1] == relativePath[..1];
      }
      assert u == rel + t;
    }
    assert u[..|rel|] == rel && u[|rel|..] == t;
  }

  /** The mount point may also arrive without its leading slash. */
  lemma StripRelativePathOfMountedToken(relativePath: string, t: string)
    requires !StartsWith(t, "/")
    requires !StartsWith(StripStartSlash(relativePath), "/")
    ensures StripRelativePath(relativePath, StripStartSlash(relativePath) + t) == t
  {
    var rel := StripStartSlash(relativePath);
    if rel == [] {
      assert rel + t == t;
    } else {
      assert (rel + t)[..1] == rel[..1];
    }
    assert StripStartSlash(rel + t) == rel + t;
    assert (rel + t)[..|rel|] == rel && (rel + t)[|rel|..] == t;
  }

  /** A string whose first character is not a slash does not start with "/". */
  lemma FirstCharNotSlash(s: string)
    requires |s| > 0 && s[0] != '/'
    ensures !StartsWith(s, "/")
  {
    assert s[..1][0] == s[0];
  }

  /** The mount point "/app/" maps both "/app/foo/bar" and "app/foo/bar" to "foo/bar". */
  lemma StripRelativePathExamples()
    ensures StripRelativePath("/app/", "/app/foo/bar") == "foo/bar"
    ensures StripRelativePath("/app/", "app/foo/bar") == "foo/bar"
  {
    FirstCharNotSlash("foo/bar");
    StripRelativePathOfUrl("/app/", "foo/bar");
    assert "/app/" + "foo/bar" == "/app/foo/bar";
    StripRelativePathOfMountedToken("/app/", "foo/bar");
    assert "app/" + "foo/bar" == "app/foo/bar";
  }

  /**
   * A token is left alone by normalisation exactly when it has no leading slash and
   * does not begin with the (non-empty) mount point.
   */
  lemma StripRelativePathFixedPoint(relativePath: string, t: string)
    ensures StripRelativePath(relativePath, t) == t <==>
              !StartsWith(t, "/")
              && (StripStartSlash(relativePath) == [] || !StartsWith(t, StripStartSlash(relativePath)))
  {
    var rel := StripStartSlash(relativePath);
    var r := StripRelativePath(relativePath, t);
    if StartsWith(t, "/") {
      assert |StripStartSlash(t)| < |t|;
      assert |r| < |t|;
    } else if rel != [] && StartsWith(t, rel) {
      assert |r| < |t|;
    } else if rel == [] {
      assert StartsWith(t, rel);
      assert t[|rel|..] == t;
    }
  }

  /**
   * Normalisation is not idempotent: a token that begins with the mount point a
   * second time loses it again when it is normalised again, for instance when the
   * token stored in a history entry comes back in a popstate event.
   */
  lemma StripRelativePathNotIdempotent()
    ensures StripRelativePath("/app/", "/app/app/x") == "app/x"
    ensures StripRelativePath("/app/", "app/x") == "x"
    ensures !Matches("x", Some("app/x"))
  {
    FirstCharNotSlash("app/x");
    FirstCharNotSlash("x");
    StripRelativePathOfUrl("/app/", "app/x");
    assert "/app/" + "app/x" == "/app/app/x";
    StripRelativePathOfMountedToken("/app/", "x");
    assert "app/" + "x" == "app/x";
    assert "x" + "/" != "app/x";
  }

  /** A history write's URL is the relative path followed by the token in its state. */
  predicate WrittenUnder(relativePath: string, o: Output) {
    o.Write? ==> o.write.url == relativePath + JavaText(o.write.token)
  }

  /**
   * The historian's log as it must always look: start-up wrote a replace first, and
   * every URL written is the relative path followed by the token in its state.
   */
  ghost predicate ValidLog(relativePath: string, outputs: seq<Output>) {
    && |outputs| > 0
    && outputs[0].Write? && outputs[0].write.Replace?
    && forall i :: 0 <= i < |outputs| ==> WrittenUnder(relativePath, outputs[i])
  }

  lemma ValidLogAppend(relativePath: string, outputs: seq<Output>, more: seq<Output>)
    requires ValidLog(relativePath, outputs)
    requires forall i :: 0 <= i < |more| ==> WrittenUnder(relativePath, more[i])
    ensures ValidLog(relativePath, outputs + more)
  {
    var all := outputs + more;
    forall i | 0 <= i < |all|
      ensures WrittenUnder(relativePath, all[i])
    {
      if i >= |outputs| {
        assert all[i] == more[i - |outputs|];
      }
    }
  }

  /**
   * The historian. `relativePath` and the presence of a previously installed
   * popstate listener are fixed at construction; `token` starts out null.
   */
  class PushStateHistorian {
    const relativePath: string
    const hasOldHandler: bool
    var token: Option<string>
    var outputs: seq<Output>

    /**
     * The relative path ends with a slash; initialisation wrote a replace first;
     * every URL written is the relative path followed by the token in its state.
     */
    ghost predicate Valid()
      reads this
    {
      EndsWith(relativePath, "/") && ValidLog(relativePath, outputs)
    }

    /**
     * `locationPath` and `queryString` are the browser location read at start-up;
     * `hasOldHandler` says whether a popstate listener was installed before.
     */
    constructor (prelativePath: Option<string>, locationPath: string, queryString: string, hasOldHandler: bool)
      ensures Valid()
      ensures relativePath == NormalizeRelativePath(prelativePath)
      ensures this.hasOldHandler == hasOldHandler
      ensures var t := StripRelativePath(relativePath, locationPath + queryString);
              token == if t == "null/" then None else Some(t)
      ensures outputs == [Write(Replace(relativePath + JavaText(token), token))]
    {
      relativePath := NormalizeRelativePath(prelativePath);
      this.hasOldHandler := hasOldHandler;
      token := None;
      outputs := [];
      new;
      MatchesNullToken(StripRelativePath(relativePath, locationPath + queryString));
      InitToken(locationPath, queryString);
    }

    method GetToken() returns (t: Option<string>)
      ensures t == token
    {
      t := token;
    }

    /** Historian.newItem: always a push when the token changes. */
    method NewItem(ptoken: string, issueEvent: bool)
      requires Valid()
      modifies this`token, this`outputs
      ensures Valid()
      ensures var t := StripRelativePath(relativePath, ptoken);
              var changed := !Matches(t, old(token));
              && token == (if changed then Some(t) else old(token))
              && outputs == old(outputs) + (
                   if !changed then []
                   else [Write(Push(relativePath + t, Some(t)))] + (if issueEvent then [ValueChange(t)] else []))
    {
      NewItemWith(ptoken, issueEvent, false);
    }

    /**
     * Records a new token: when its normalised form does not match the current
     * token, the token changes, one push (or replace) is written and then, if asked
     * for, one change event carries the new token; otherwise nothing happens.
     */
    method NewItemWith(ptoken: string, issueEvent: bool, replaceState: bool)
      requires Valid()
      modifies this`token, this`outputs
      ensures Valid()
      ensures var t := StripRelativePath(relativePath, ptoken);
              var changed := !Matches(t, old(token));
              var written := if replaceState then Replace(relativePath + t, Some(t)) else Push(relativePath + t, Some(t));
              && token == (if changed then Some(t) else old(token))
              && outputs == old(outputs) + (
                   if !changed then []
                   else [Write(written)] + (if issueEvent then [ValueChange(t)] else []))
    {
      ghost var before := outputs;
      var changed := SetToken(ptoken);
      if changed {
        ghost var t := token.value;
        if replaceState {
          ReplaceState(token);
        } else {
          PushState(token);
        }
        ghost var written := outputs;
        assert JavaText(token) == t;
        if issueEvent {
          outputs := outputs + [ValueChange(token.value)];
          assert outputs == before + [written[|before|], ValueChange(t)];
        }
        ValidLogAppend(relativePath, before, outputs[|before|..]);
        assert before + outputs[|before|..] == outputs;
      }
    }

    /**
     * The listener installed on the window: a popstate event whose state object has
     * a "token" key goes to OnPopState first; any popstate event is then passed on to
     * the listener that was installed before, if there was one.
     */
    method HandlePopState(evt: WindowEvent)
      requires Valid()
      modifies this`token, this`outputs
      ensures Valid()
      ensures var chained := if evt.PopStateEvent? && hasOldHandler then [Chained(evt)] else [];
              if evt.PopStateEvent? && evt.state.TokenKey? then
                var t := StripRelativePath(relativePath, evt.state.token);
                var changed := !Matches(t, old(token));
                && token == (if changed then Some(t) else old(token))
                && outputs == old(outputs) + (if changed then [ValueChange(t)] else []) + chained
              else
                token == old(token) && outputs == old(outputs) + chained
    {
      if evt.PopStateEvent? {
        if evt.state.TokenKey? {
          OnPopState(evt.state.token);
        }
        if hasOldHandler {
          outputs := outputs + [Chained(evt)];
        }
      }
    }

    /** Takes a token from back/forward navigation: never writes history, fires on change. */
    method OnPopState(ptoken: string)
      requires Valid()
      modifies this`token, this`outputs
      ensures Valid()
      ensures var t := StripRelativePath(relativePath, ptoken);
              var changed := !Matches(t, old(token));
              && token == (if changed then Some(t) else old(token))
              && outputs == old(outputs) + (if changed then [ValueChange(t)] else [])
    {
      var changed := SetToken(ptoken);
      if changed {
        outputs := outputs + [ValueChange(token.value)];
      }
    }

    /**
     * Start-up: normalises path and query of the current location and then always
     * writes one replace carrying the current token, changed or not; no event.
     */
    method InitToken(locationPath: string, queryString: string)
      modifies this`token, this`outputs
      ensures var t := StripRelativePath(relativePath, locationPath + queryString);
              token == if Matches(t, old(token)) then old(token) else Some(t)
      ensures outputs == old(outputs) + [Write(Replace(relativePath + JavaText(token), token))]
    {
      var _ := SetToken(locationPath + queryString);
      ReplaceState(token);
    }

    method ReplaceState(ptoken: Option<string>)
      modifies this`outputs
      ensures outputs == old(outputs) + [Write(Replace(relativePath + JavaText(ptoken), ptoken))]
    {
      outputs := outputs + [Write(Replace(relativePath + JavaText(ptoken), ptoken))];
    }

    method PushState(ptoken: Option<string>)
      modifies this`outputs
      ensures outputs == old(outputs) + [Write(Push(relativePath + JavaText(ptoken), ptoken))]
    {
      outputs := outputs + [Write(Push(relativePath + JavaText(ptoken), ptoken))];
    }

    /** Replaces the token by the normalised input unless the two match; says whether it did. */
    method SetToken(pnewToken: string) returns (changed: bool)
      modifies this`token
      ensures var t := StripRelativePath(relativePath, pnewToken);
              && changed == !Matches(t, old(token))
              && token == if changed then Some(t) else old(token)
    {
      var newToken := StripRelativePath(relativePath, pnewToken);
      if !Matches(newToken, token) {
        token := Some(newToken);
        changed := true;
      } else {
        changed := false;
      }
    }
  }

  /** Calling newItem a second time with the same input changes nothing more. */
  method RepeatedNewItem(h: PushStateHistorian, ptoken: string, issueEvent: bool, replaceState: bool)
    requires h.Valid()
    modifies h
    ensures h.Valid()
    ensures var t := StripRelativePath(h.relativePath, ptoken);
            var changed := !Matches(t, old(h.token));
            var written := if replaceState then Replace(h.relativePath + t, Some(t)) else Push(h.relativePath + t, Some(t));
            && h.token == (if changed then Some(t) else old(h.token))
            && h.outputs == old(h.outputs) + (
                 if !changed then []
                 else [Write(written)] + (if issueEvent then [ValueChange(t)] else []))
  {
    h.NewItemWith(ptoken, issueEvent, replaceState);
    var t := StripRelativePath(h.relativePath, ptoken);
    MatchesNonNull(t, t);
    if h.token != old(h.token) {
      assert h.token == Some(t);
    }
    h.NewItemWith(ptoken, issueEvent, replaceState);
  }

  /**
   * Pushing a normalised token and then popping back to an entry whose state holds
   * that same token changes nothing; popping to another normalised token makes it
   * the token and fires exactly one event; a state without a token changes nothing.
   * Without an earlier popstate listener, nothing is chained.
   */
  method PushThenPop(h: PushStateHistorian, t: string, other: string)
    requires h.Valid() && !h.hasOldHandler
    requires StripRelativePath(h.relativePath, t) == t && !Matches(t, h.token)
    requires StripRelativePath(h.relativePath, other) == other && !Matches(other, Some(t))
    modifies h
    ensures h.Valid()
    ensures h.token == Some(other)
    ensures h.outputs == old(h.outputs) + [Write(Push(h.relativePath + t, Some(t))), ValueChange(t), ValueChange(other)]
  {
    ghost var before := h.outputs;
    ghost var pushed := Write(Push(h.relativePath + t, Some(t)));
    h.NewItem(t, true);
    assert h.token == Some(t) && h.outputs == before + [pushed, ValueChange(t)];
    ghost var afterPush := h.outputs;
    MatchesNonNull(t, t);
    h.HandlePopState(PopStateEvent(TokenKey(t)));
    assert h.token == Some(t) && h.outputs == afterPush;
    h.HandlePopState(PopStateEvent(TokenKey(other)));
    assert h.token == Some(other) && h.outputs == afterPush + [ValueChange(other)];
    ghost var afterPop := h.outputs;
    h.HandlePopState(PopStateEvent(NoTokenKey));
    assert h.outputs == afterPop;
  }

  /**
   * With an earlier popstate listener, a popstate that changes the token fires the
   * change event before the earlier listener is called; one without a token is
   * still passed on.
   */
  method PopThenChain(h: PushStateHistorian, t: string)
    requires h.Valid() && h.hasOldHandler
    requires !Matches(StripRelativePath(h.relativePath, t), h.token)
    modifies h
    ensures h.Valid()
    ensures h.token == Some(StripRelativePath(h.relativePath, t))
    ensures h.outputs == old(h.outputs) + [
              ValueChange(StripRelativePath(h.relativePath, t)),
              Chained(PopStateEvent(TokenKey(t))),
              Chained(PopStateEvent(NotAnObject))]
  {
    h.HandlePopState(PopStateEvent(TokenKey(t)));
    ghost var afterPop := h.outputs;
    h.HandlePopState(PopStateEvent(NotAnObject));
    assert h.outputs == afterPop + [Chained(PopStateEvent(NotAnObject))];
  }
}
