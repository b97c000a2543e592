/**
 * The hyperlink delegate: gives an anchor widget an href built from its target
 * token and turns a plain click on it into a historian newItem instead of a page
 * load. What it does to the outside world is logged in order as Effects.
 */
module Hyperlink {
  import opened Wrappers
  import opened Strings
  import Historian

  datatype EventKind = Click | MouseOver | MouseOut | OtherKind

  /**
   * A DOM event as the delegate sees it: its type, whether ctrl was held, and
   * whether its related target is non-null and inside the widget's element.
   */
  datatype BrowserEvent = BrowserEvent(kind: EventKind, ctrlKey: bool, relatedInside: bool)

  /** What the delegate asks of the widget, the historian and the event, in order. */
  datatype Effect =
    | FireNative(event: BrowserEvent)
    | NewItem(token: Option<string>, issueEvent: bool)
    | PreventDefault

  /** Puts a slash in front of a token that does not have one yet. */
  function EnsureHasRoot(s: string): (r: string)
    ensures StartsWith(r, "/")
    ensures StartsWith(s, "/") ==> r == s
    ensures !StartsWith(s, "/") ==> r == "/" + s
  {
    if |s| > 0 && s[0] == '/' then
      assert s[..1] == "/";
      s
    else
      assert !StartsWith(s, "/") by {
        if |s| > 0 { assert s[..1][0] == s[0]; }
      }
      "/" + s
  }

  /** A hover that moves within the widget's own element: ignored entirely. */
  predicate InternalHover(e: BrowserEvent) {
    (e.kind == MouseOver || e.kind == MouseOut) && e.relatedInside
  }

  /** A click without ctrl: routed through the historian instead of navigating. */
  predicate Intercepted(e: BrowserEvent) {
    e.kind == Click && !e.ctrlKey
  }

  /** EnsureHasRoot is the historian's slash stripping undone: a slash and the rest. */
  lemma EnsureHasRootIsSlashThenStripped(s: string)
    ensures EnsureHasRoot(s) == "/" + Historian.StripStartSlash(s)
    ensures EnsureHasRoot(EnsureHasRoot(s)) == EnsureHasRoot(s)
  {
  }

  /**
   * Loading a link's href as the page location gives the historian, at start-up,
   * the link's token without its leading slash, whatever the mount point. The
   * lemma takes the delegate's relative path and the historian's to be the same
   * string, which holds when PushStateHistorian.getRelativePath already ends in "/"
   * (the historian appends one otherwise).
   */
  lemma HrefNormalizesToToken(relativePath: string, t: string)
    requires relativePath != []
    ensures Historian.StripRelativePath(relativePath, relativePath + EnsureHasRoot(t))
            == Historian.StripStartSlash(t)
  {
    var u := Historian.StripStartSlash(t);
    var rel := Historian.StripStartSlash(relativePath);
    var p := relativePath + EnsureHasRoot(t);
    EnsureHasRootIsSlashThenStripped(t);
    assert p == relativePath + "/" + u;
    var stripped := Historian.StripStartSlash(p);
    if StartsWith(relativePath, "/") {
      assert p == "/" + (rel + "/" + u);
      assert p[..1] == "/";
      assert stripped == rel + "/" + u;
    } else {
      assert p[..1] == relativePath[..1];
      assert stripped == rel + "/" + u;
    }
    assert stripped[..|rel|] == rel;
    assert stripped[|rel|..] == "/" + u;
  }

  class HyperlinkDelegate {
    /** The historian's relative path, as PushStateHistorian.getRelativePath gives it. */
    const relativePath: string
    /** CodeServerParameterHelper.append: adds the dev-mode parameter, if any. */
    const appendParameter: string -> string
    var targetHistoryToken: Option<string>
    /** The href property this delegate last set on the element. */
    var href: Option<string>
    var effects: seq<Effect>

    constructor (relativePath: string, appendParameter: string -> string)
      ensures this.relativePath == relativePath && this.appendParameter == appendParameter
      ensures targetHistoryToken == None && href == None && effects == []
    {
      this.relativePath := relativePath;
      this.appendParameter := appendParameter;
      targetHistoryToken := None;
      href := None;
      effects := [];
    }

    /** Stores the decorated token and points the element's href at it under the relative path. */
    method SetTargetHistoryToken(ptargetHistoryToken: string)
      modifies this`targetHistoryToken, this`href
      ensures targetHistoryToken == Some(appendParameter(ptargetHistoryToken))
      ensures href == Some(relativePath + EnsureHasRoot(targetHistoryToken.value))
      ensures StartsWith(href.value, relativePath + "/")
    {
      targetHistoryToken := Some(appendParameter(ptargetHistoryToken));
      var root := EnsureHasRoot(targetHistoryToken.value);
      assert (relativePath + root)[..|relativePath| + 1] == relativePath + root[..1];
      href := Some(relativePath + root);
    }

    method GetTargetHistoryToken() returns (t: Option<string>)
      ensures t == targetHistoryToken
    {
      t := targetHistoryToken;
    }

    /**
     * A hover inside the widget is dropped; any other event is fired on the widget,
     * and a plain click then also calls newItem(target, true) and prevents the
     * browser's own navigation, in that order.
     */
    method OnBrowserEvent(e: BrowserEvent)
      modifies this`effects
      ensures InternalHover(e) ==> effects == old(effects)
      ensures !InternalHover(e) && Intercepted(e) ==>
                effects == old(effects) + [FireNative(e), NewItem(targetHistoryToken, true), PreventDefault]
      ensures !InternalHover(e) && !Intercepted(e) ==> effects == old(effects) + [FireNative(e)]
    {
      if e.kind == MouseOver || e.kind == MouseOut {
        if e.relatedInside {
          return;
        }
      }
      effects := effects + [FireNative(e)];
      if e.kind == Click && !e.ctrlKey {
        var t := GetTargetHistoryToken();
        effects := effects + [NewItem(t, true)];
        effects := effects + [PreventDefault];
      }
    }
  }

  /** After SetTargetHistoryToken, GetTargetHistoryToken gives back the stored token. */
  method SetThenGet(d: HyperlinkDelegate, ptoken: string) returns (t: Option<string>)
    modifies d
    ensures t == Some(d.appendParameter(ptoken))
  {
    d.SetTargetHistoryToken(ptoken);
    t := d.GetTargetHistoryToken();
  }
}
