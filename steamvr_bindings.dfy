/**
 * Custom controller bindings are saved as JSON files whose names carry the
 * overlay application's ID, the scene application's ID (unless the binding
 * is the application's default) and the controller type. Applying all
 * custom bindings recovers the application IDs from the file names with two
 * regular expressions.
 *
 * The directory, the files' contents and the requests to the runtime's web
 * interface are not modelled; the directory listing is a parameter.
 */
module SteamVRBindings {
  import opened Common
  import opened StringSearch

  /** The file name `saveBind` writes: per scene, or the application's default. */
  function BindingFileName(appID: string, sceneAppID: string, ctrlType: string, def: bool): string {
    if def then "defovl" + appID + "ctrl" + ctrlType + ".json"
    else "ovl" + appID + "scene" + sceneAppID + "ctrl" + ctrlType + ".json"
  }

  /**
   * `regex_search` with `open(.*)close`, giving the group: the leftmost
   * `open` that a `close` follows, and the greedy group runs up to the last
   * `close` after it. A `close` after some `open` also follows the first one,
   * so the leftmost `open` is the first.
   */
  function SearchBetween(s: string, open: string, close: string): (r: Option<string>)
    ensures r.Some? <==> exists i, j :: OccursAt(s, open, i) && OccursAt(s, close, j) && i + |open| <= j
    ensures r.Some? ==> exists i: nat, j: nat :: LeftmostGreedy(s, open, close, i, j) && r.value == s[i + |open|..j]
  {
    match IndexOf(s, open)
    case None => None
    case Some(i) =>
      match LastIndexIn(s, close, i + |open|, |s| + 1)
      case None =>
        assert forall i', j :: OccursAt(s, open, i') && OccursAt(s, close, j) && i' + |open| <= j ==> i + |open| <= j < |s| + 1;
        None
      case Some(j) =>
        assert LeftmostGreedy(s, open, close, i, j);
        Some(s[i + |open|..j])
  }

  /**
   * The leftmost, greedy match of `open(.*)close`: `i` is the first
   * occurrence of `open`, and `j` the last occurrence of `close` that
   * starts after that `open` ends.
   */
  ghost predicate LeftmostGreedy(s: string, open: string, close: string, i: nat, j: nat) {
    && OccursAt(s, open, i) && (forall k :: 0 <= k < i ==> !OccursAt(s, open, k))
    && i + |open| <= j && OccursAt(s, close, j) && (forall k :: j < k ==> !OccursAt(s, close, k))
  }

  /** The application ID `applyAllCustomBindings` takes from a file name, if any. */
  function AppIdOf(filename: string): Option<string> {
    var scene := SearchBetween(filename, "ovl", "scene");
    if scene.Some? then scene else SearchBetween(filename, "defovl", "ctrl")
  }

  /** `applyAllCustomBindings`: the set of application IDs whose bindings are then applied. */
  method ApplyAllCustomBindings(bindings: seq<string>) returns (appIDs: set<string>)
    ensures forall id :: id in appIDs <==> exists f :: f in bindings && AppIdOf(f) == Some(id)
  {
    appIDs := {};
    for i := 0 to |bindings|
      invariant forall id :: id in appIDs <==> exists k :: 0 <= k < i && AppIdOf(bindings[k]) == Some(id)
    {
      var id := AppIdOf(bindings[i]);
      if id.Some? {
        appIDs := appIDs + {id.value};
      }
    }
  }

  /**
   * `applyBindingReq`'s choice of file: none without a scene application;
   * otherwise the scene's binding if it exists, else the default if it
   * exists, else none. `fileExists` answers whether a file is present.
   */
  function BindingToApply(appID: string, sceneAppID: string, ctrlType: string, fileExists: string -> bool): (r: Option<string>)
    ensures sceneAppID == "" ==> r == None
    ensures r.Some? ==> fileExists(r.value)
    ensures sceneAppID != "" && fileExists(BindingFileName(appID, sceneAppID, ctrlType, false))
            ==> r == Some(BindingFileName(appID, sceneAppID, ctrlType, false))
    ensures r.None? <==> sceneAppID == "" || (!fileExists(BindingFileName(appID, sceneAppID, ctrlType, false))
                                              && !fileExists(BindingFileName(appID, sceneAppID, ctrlType, true)))
    ensures r.Some? ==> r.value == BindingFileName(appID, sceneAppID, ctrlType, false) ||
                        r.value == BindingFileName(appID, sceneAppID, ctrlType, true)
  {
    if sceneAppID == "" then None
    else
      var fileName := BindingFileName(appID, sceneAppID, ctrlType, false);
      if fileExists(fileName) then Some(fileName)
      else
        var defName := BindingFileName(appID, sceneAppID, ctrlType, true);
        if fileExists(defName) then Some(defName) else None
  }

  // Reading the application ID back.

  lemma OccursAtStart(w: string, t: string)
    ensures OccursAt(w + t, w, 0)
  {
    assert (w + t)[..|w|] == w;
  }

  /** An occurrence inside the second part of a + b is an occurrence in b. */
  lemma OccursInSuffix(a: string, b: string, w: string, k: int)
    requires OccursAt(a + b, w, k) && k >= |a|
    ensures OccursAt(b, w, k - |a|)
  {
    assert (a + b)[k..k + |w|] == b[k - |a|..k - |a| + |w|];
  }

  /** The first occurrence is at 0 when w starts s. */
  lemma IndexOfStart(w: string, t: string)
    ensures IndexOf(w + t, w) == Some(0)
  {
    OccursAtStart(w, t);
  }

  /**
   * The last occurrence of w (at or after lo) is at |a| in a + w + c, when
   * w cannot start inside its own tail and c does not contain it.
   */
  lemma LastOccurrence(a: string, w: string, c: string, lo: nat)
    requires |w| > 0 && lo <= |a|
    requires forall m :: 0 < m < |w| ==> w[m] != w[0]
    requires !Contains(c, w)
    ensures LastIndexIn(a + w + c, w, lo, |a + w + c| + 1) == Some(|a|)
  {
    var s := a + w + c;
    assert OccursAt(s, w, |a|) by {
      assert s[|a|..|a| + |w|] == w;
    }
    forall k | |a| < k <= |s|
      ensures !OccursAt(s, w, k)
    {
      if k < |a| + |w| {
        if k + |w| <= |s| {
          assert s[k..k + |w|][0] == s[k] == w[k - |a|];
        }
      } else if OccursAt(s, w, k) {
        assert s == (a + w) + c;
        OccursInSuffix(a + w, c, w, k);
        assert false;
      }
    }
  }

  /**
   * A per-scene binding's name gives back its application ID, as long as
   * "scene" does not occur after the separator.
   */
  lemma SceneBindingRoundTrip(appID: string, sceneAppID: string, ctrlType: string)
    requires !Contains(sceneAppID + "ctrl" + ctrlType + ".json", "scene")
    ensures AppIdOf(BindingFileName(appID, sceneAppID, ctrlType, false)) == Some(appID)
  {
    var rest := sceneAppID + "ctrl" + ctrlType + ".json";
    var s := BindingFileName(appID, sceneAppID, ctrlType, false);
    assert s == ("ovl" + appID) + "scene" + rest;
    IndexOfStart("ovl", appID + "scene" + rest);
    assert "ovl" + (appID + "scene" + rest) == s;
    LastOccurrence("ovl" + appID, "scene", rest, 3);
    assert s[3..3 + |appID|] == appID;
  }

  /**
   * A default binding's name gives back its application ID, as long as the
   * name has no "scene" and "ctrl" does not occur after the separator.
   */
  lemma DefaultBindingRoundTrip(appID: string, sceneAppID: string, ctrlType: string)
    requires !Contains(BindingFileName(appID, sceneAppID, ctrlType, true), "scene")
    requires !Contains(ctrlType + ".json", "ctrl")
    ensures AppIdOf(BindingFileName(appID, sceneAppID, ctrlType, true)) == Some(appID)
  {
    var rest := ctrlType + ".json";
    var s := BindingFileName(appID, sceneAppID, ctrlType, true);
    assert s == ("defovl" + appID) + "ctrl" + rest;
    assert SearchBetween(s, "ovl", "scene") == None by {
      var i := IndexOf(s, "ovl");
      if i.Some? {
        assert LastIndexIn(s, "scene", i.value + 3, |s| + 1) == None;
      }
    }
    IndexOfStart("defovl", appID + "ctrl" + rest);
    assert "defovl" + (appID + "ctrl" + rest) == s;
    LastOccurrence("defovl" + appID, "ctrl", rest, 6);
    assert s[6..6 + |appID|] == appID;
  }

  /** Saving a binding and applying all bindings asks for that application's bindings. */
  lemma SavedBindingIsApplied(bindings: seq<string>, appID: string, sceneAppID: string, ctrlType: string)
    requires BindingFileName(appID, sceneAppID, ctrlType, false) in bindings
    requires !Contains(sceneAppID + "ctrl" + ctrlType + ".json", "scene")
    ensures exists f :: f in bindings && AppIdOf(f) == Some(appID)
  {
    SceneBindingRoundTrip(appID, sceneAppID, ctrlType);
  }
}
