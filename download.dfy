/**
 * The download page: three platforms, the file name each one gets, and
 * the single `downloading` cell that locks every button while a download
 * is under way.
 */
module Download {

  import opened Wrappers

  datatype Platform = Platform(id: string, name: string)

  const Platforms: seq<Platform> := [Platform("windows", "Windows"), Platform("android", "Android"), Platform("ios", "iOS")]

  /** The file extension: `ipa` for iOS, `apk` for Android, `exe` for anything else. */
  function Extension(id: string): (e: string)
    ensures |e| == 3
  {
    if id == "ios" then "ipa" else if id == "android" then "apk" else "exe"
  }

  const FilePrefix := "ai-trading-bot-"

  function FileName(id: string): string {
    FilePrefix + id + "." + Extension(id)
  }

  /** The platform id read back from a file name: what lies between the prefix and the dot-extension. */
  function IdOfFileName(f: string): string
    requires |f| >= |FilePrefix| + 4
  {
    f[|FilePrefix|..|f| - 4]
  }

  /** The name determines the id, so no two platforms share a file. */
  lemma FileNameRoundTrip(id: string)
    ensures |FileName(id)| >= |FilePrefix| + 4 && IdOfFileName(FileName(id)) == id
    ensures FileName(id)[|FileName(id)| - 4..] == "." + Extension(id)
  {
    var f := FileName(id);
    assert f == FilePrefix + id + ("." + Extension(id));
  }

  lemma FileNameInjective(a: string, b: string)
    requires FileName(a) == FileName(b)
    ensures a == b
  {
    FileNameRoundTrip(a);
    FileNameRoundTrip(b);
  }

  /** The three platform files. */
  lemma PlatformFiles()
    ensures FileName("windows") == "ai-trading-bot-windows.exe"
    ensures FileName("android") == "ai-trading-bot-android.apk"
    ensures FileName("ios") == "ai-trading-bot-ios.ipa"
  {
  }

  /** `platforms.find(p => p.id === id)`. */
  function FindPlatform(ps: seq<Platform>, id: string): (r: Option<Platform>)
    ensures r.Some? ==> r.value in ps && r.value.id == id
    ensures r.None? ==> forall k :: 0 <= k < |ps| ==> ps[k].id != id
  {
    if |ps| == 0 then None else if ps[0].id == id then Some(ps[0]) else FindPlatform(ps[1..], id)
  }

  /** The success message, which ends in `undefined` for an id outside the table. */
  function StartedAlert(id: string): string {
    var p := FindPlatform(Platforms, id);
    "Download started for " + (if p.Some? then p.value.name else "undefined")
  }

  const FailedAlert := "Download failed. Please try again."

  /** The message names the platform whose id was clicked. */
  lemma StartedAlertNames()
    ensures StartedAlert("windows") == "Download started for Windows"
    ensures StartedAlert("android") == "Download started for Android"
    ensures StartedAlert("ios") == "Download started for iOS"
  {
    assert Platforms[0].id == "windows";
    assert Platforms[1].id == "android" && Platforms[0].id != "android";
    assert Platforms[2].id == "ios" && Platforms[0].id != "ios" && Platforms[1].id != "ios";
  }

  class DownloadPage {
    var downloading: Option<string>
    /** Downloads awaiting their simulated delay, oldest first. */
    var inFlight: seq<string>
    /** Every alert shown, in order. */
    var alerts: seq<string>
    /** The file names of the download links built so far. */
    var links: seq<string>

    /** `downloading` holds exactly the download in flight: never more than one. */
    ghost predicate Valid()
      reads this
    {
      |inFlight| <= 1 && (downloading.Some? <==> |inFlight| == 1)
      && (downloading.Some? ==> downloading.value == inFlight[0])
    }

    /** Every button is disabled while any download runs. */
    predicate Disabled(id: string)
      reads this
    {
      downloading == Some(id) || downloading != None
    }

    /** The spinner and "Downloading..." show on the button being downloaded. */
    predicate ShowsProgress(id: string)
      reads this
    {
      downloading == Some(id)
    }

    /** A button is locked exactly while some download runs, and at most one shows progress. */
    lemma LockShape(a: string, b: string)
      ensures Disabled(a) <==> downloading.Some?
      ensures ShowsProgress(a) && ShowsProgress(b) ==> a == b
      ensures ShowsProgress(a) ==> Disabled(b)
    {
    }

    constructor ()
      ensures Valid() && downloading == None && inFlight == [] && alerts == [] && links == []
    {
      downloading := None;
      inFlight := [];
      alerts := [];
      links := [];
    }

    /** A click on an enabled button: the lock is taken for that platform and the delay starts. */
    method Start(id: string)
      requires Valid() && !Disabled(id)
      modifies this
      ensures Valid()
      ensures downloading == Some(id) && inFlight == [id]
      ensures alerts == old(alerts) && links == old(links)
    {
      downloading := Some(id);
      inFlight := inFlight + [id];
    }

    /**
     * The delay ends.  On success the link is built and the platform named;
     * on failure the failure alert shows; either way `finally` frees the lock.
     */
    method Complete(failed: bool)
      requires Valid() && |inFlight| > 0
      modifies this
      ensures Valid()
      ensures downloading == None && inFlight == []
      ensures !failed ==> links == old(links) + [FileName(old(inFlight)[0])] && alerts == old(alerts) + [StartedAlert(old(inFlight)[0])]
      ensures failed ==> links == old(links) && alerts == old(alerts) + [FailedAlert]
    {
      var id := inFlight[0];
      if !failed {
        links := links + [FileName(id)];
        alerts := alerts + [StartedAlert(id)];
      } else {
        alerts := alerts + [FailedAlert];
      }
      downloading := None;
      inFlight := inFlight[1..];
    }
  }
}
