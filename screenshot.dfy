/** Best-effort screenshot capture: find a visual-context handle among the
    item's fixtures (or on its test-class instance) and read an encoded image
    from it.  Nothing here can fail: a missing handle, a missing accessor and a
    raising accessor all give `None`. */
module Screenshot {
  import opened Pytest

  /** The fixture names probed for a handle, in this order. */
  const CandidateNames: seq<string> := ["driver", "browser", "page", "web_driver"]

  /** The value of the first of `names` that is a fixture, if any is. */
  function FirstFixture(names: seq<string>, funcargs: map<string, Option<Handle>>): (r: Option<Option<Handle>>)
    ensures r.None? <==> forall i :: 0 <= i < |names| ==> names[i] !in funcargs
    ensures r.Some? ==> exists i :: 0 <= i < |names| && names[i] in funcargs && r.value == funcargs[names[i]]
                                    && forall j :: 0 <= j < i ==> names[j] !in funcargs
  {
    if names == [] then None
    else if names[0] in funcargs then
      Some(funcargs[names[0]])
    else
      var r := FirstFixture(names[1..], funcargs);
      assert forall i :: 1 <= i < |names| ==> names[i] == names[1..][i - 1];
      if r.Some? then
        var i :| 0 <= i < |names| - 1 && names[1..][i] in funcargs && r.value == funcargs[names[1..][i]]
                 && forall j :: 0 <= j < i ==> names[1..][j] !in funcargs;
        assert names[i + 1] in funcargs && r.value == funcargs[names[i + 1]]
               && forall j :: 0 <= j < i + 1 ==> names[j] !in funcargs;
        r
      else r
  }

  /** The handle the capturer uses: the first candidate fixture when one is
      present and not `None`, otherwise the instance's `driver`. */
  function ResolveHandle(item: Item): (r: Option<Handle>)
    ensures (forall i :: 0 <= i < |CandidateNames| ==> CandidateNames[i] !in item.funcargs) ==> r == item.instanceDriver
    ensures r == item.instanceDriver ||
            exists i :: 0 <= i < |CandidateNames| && CandidateNames[i] in item.funcargs && item.funcargs[CandidateNames[i]] == r
  {
    match FirstFixture(CandidateNames, item.funcargs)
    case Some(Some(h)) => Some(h)
    case _ => item.instanceDriver
  }

  /** The image read from `handle`: the base64 accessor when the handle has
      one, else the raw-bytes accessor encoded by `encode`; a raising accessor
      gives `None`.  This is the reference definition; `CaptureScreenshot`
      performs the same steps as statements and is proved equal to it. */
  function Capture(handle: Option<Handle>, encode: seq<byte> -> string): (r: Option<string>)
    ensures handle.None? ==> r.None?
    ensures handle.Some? && handle.value.base64Accessor.Returns? ==>
              r == Some(handle.value.base64Accessor.value)
    ensures handle.Some? && handle.value.base64Accessor.Absent? && handle.value.screenshotAccessor.Returns? ==>
              r == Some(encode(handle.value.screenshotAccessor.value))
    ensures r.Some? ==>
              && handle.Some?
              && (|| handle.value.base64Accessor == Returns(r.value)
                  || (&& handle.value.base64Accessor.Absent?
                      && handle.value.screenshotAccessor.Returns?
                      && r.value == encode(handle.value.screenshotAccessor.value)))
  {
    match handle
    case None => None
    case Some(d) =>
      match d.base64Accessor
      case Returns(text) => Some(text)
      case Raises => None
      case Absent =>
        match d.screenshotAccessor
        case Returns(bytes) => Some(encode(bytes))
        case Raises => None
        case Absent => None
  }

  /** `_capture_screenshot(item)`: the lookup loop stops at the first candidate
      name that is a fixture. */
  method CaptureScreenshot(item: Item, encode: seq<byte> -> string) returns (screenshotBase64: Option<string>)
    ensures screenshotBase64 == Capture(ResolveHandle(item), encode)
  {
    screenshotBase64 := None;
    var driver: Option<Handle> := None;
    var i := 0;
    while i < |CandidateNames|
      invariant 0 <= i <= |CandidateNames|
      invariant FirstFixture(CandidateNames[i..], item.funcargs) == FirstFixture(CandidateNames, item.funcargs)
      invariant driver == None
    {
      var name := CandidateNames[i];
      if name in item.funcargs {
        driver := item.funcargs[name];
        assert FirstFixture(CandidateNames[i..], item.funcargs) == Some(driver);
        break;
      }
      assert CandidateNames[i..][1..] == CandidateNames[i + 1..];
      i := i + 1;
    }
    if driver.None? {
      driver := item.instanceDriver;
    }
    match driver {
      case None =>
      case Some(d) =>
        match d.base64Accessor {
          case Returns(text) => screenshotBase64 := Some(text);
          case Raises =>
          case Absent =>
            match d.screenshotAccessor {
              case Returns(bytes) => screenshotBase64 := Some(encode(bytes));
              case Raises =>
              case Absent =>
            }
        }
    }
  }

  /** The handle is the value of the first candidate fixture present, when
      that value is not `None`; candidates later in the list are ignored. */
  lemma FirstCandidateWins(item: Item, i: nat, h: Handle)
    requires i < |CandidateNames| && CandidateNames[i] in item.funcargs
    requires forall j :: 0 <= j < i ==> CandidateNames[j] !in item.funcargs
    requires item.funcargs[CandidateNames[i]] == Some(h)
    ensures ResolveHandle(item) == Some(h)
  {
    var r := FirstFixture(CandidateNames, item.funcargs);
    var k :| 0 <= k < |CandidateNames| && CandidateNames[k] in item.funcargs
             && r.value == item.funcargs[CandidateNames[k]]
             && forall j :: 0 <= j < k ==> CandidateNames[j] !in item.funcargs;
    assert k == i;
  }

  /** When the first candidate fixture present holds `None`, the instance's
      `driver` is used; candidates later in the list are not consulted. */
  lemma FirstCandidateNoneFallsBack(item: Item, i: nat)
    requires i < |CandidateNames| && CandidateNames[i] in item.funcargs
    requires forall j :: 0 <= j < i ==> CandidateNames[j] !in item.funcargs
    requires item.funcargs[CandidateNames[i]] == None
    ensures ResolveHandle(item) == item.instanceDriver
  {
    var r := FirstFixture(CandidateNames, item.funcargs);
    var k :| 0 <= k < |CandidateNames| && CandidateNames[k] in item.funcargs
             && r.value == item.funcargs[CandidateNames[k]]
             && forall j :: 0 <= j < k ==> CandidateNames[j] !in item.funcargs;
    assert k == i;
  }

  /** With no candidate fixture and no instance driver there is no screenshot. */
  lemma NoHandleNoScreenshot(item: Item, encode: seq<byte> -> string)
    requires forall i :: 0 <= i < |CandidateNames| ==> CandidateNames[i] !in item.funcargs
    requires item.instanceDriver.None?
    ensures Capture(ResolveHandle(item), encode) == None
  {
  }

  /** A raising accessor is swallowed: the result is `None`, never an error. */
  lemma RaisingAccessorGivesNone(h: Handle, encode: seq<byte> -> string)
    requires h.base64Accessor.Raises? || (h.base64Accessor.Absent? && h.screenshotAccessor.Raises?)
    ensures Capture(Some(h), encode) == None
  {
  }
}
