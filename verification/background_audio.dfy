/**
 The Expo config plugin of plugins/withBackgroundAudio.js: guarded
 insertions into the iOS Info.plist (background mode `audio`, microphone
 usage text) and into the Android manifest (four permissions and the
 recording foreground service). Only the parts of each document the plugin
 reads or writes are modelled; everything else is carried along unchanged.
 */
module BackgroundAudio {
  import opened Outcomes

  // ------------------------------------------------------------------ iOS

  /** The Info.plist keys the plugin touches, and the rest of the plist. */
  datatype InfoPlist = InfoPlist(
    backgroundModes: Option<seq<string>>,   // UIBackgroundModes
    micUsage: Option<string>,               // NSMicrophoneUsageDescription
    others: map<string, string>)

  /** The background mode that keeps audio capture running. */
  const AudioMode := "audio"

  /** The usage text set when none is configured. */
  const DefaultMicUsage := "This app needs microphone access to record meetings and generate transcripts."

  /**
   `withBackgroundAudioIOS`. `UIBackgroundModes` is created when missing and
   gets `audio` appended only when absent, so the existing entries stay first
   and in order. The usage text is set only when it is falsy.
   */
  function WithBackgroundAudioIOS(p: InfoPlist): (r: InfoPlist)
    ensures r.backgroundModes.Some? && AudioMode in r.backgroundModes.value
    ensures p.backgroundModes.Some? ==>
      && |p.backgroundModes.value| <= |r.backgroundModes.value| <= |p.backgroundModes.value| + 1
      && r.backgroundModes.value[..|p.backgroundModes.value|] == p.backgroundModes.value
    ensures p.backgroundModes.Some? && AudioMode in p.backgroundModes.value ==> r.backgroundModes == p.backgroundModes
    ensures p.backgroundModes.None? ==> r.backgroundModes == Some([AudioMode])
    ensures !Truthy(p.micUsage) ==> r.micUsage == Some(DefaultMicUsage)
    ensures Truthy(p.micUsage) ==> r.micUsage == p.micUsage
    ensures r.others == p.others
  {
    var modes := p.backgroundModes.GetOr([]);
    var modes' := if AudioMode in modes then modes else modes + [AudioMode];
    assert [] + [AudioMode] == [AudioMode];
    var mic := if !Truthy(p.micUsage) then Some(DefaultMicUsage) else p.micUsage;
    p.(backgroundModes := Some(modes'), micUsage := mic)
  }

  // -------------------------------------------------------------- Android

  /** An XML element of the manifest as the plugin sees it: its `$` attribute map, if any. */
  datatype XmlElement = XmlElement(attrs: Option<map<string, string>>)

  /** `e.$?.['android:name']`. */
  function NameOf(e: XmlElement): Option<string> {
    if e.attrs.Some? && "android:name" in e.attrs.value then Some(e.attrs.value["android:name"]) else None
  }

  /** `es.some((e) => e.$?.['android:name'] === name)`. */
  predicate Declares(es: seq<XmlElement>, name: string) {
    exists e :: e in es && NameOf(e) == Some(name)
  }

  /** An `<application>` element: its `service` children and the rest of it. */
  datatype Application = Application(services: Option<seq<XmlElement>>, others: map<string, string>)

  /** The `<manifest>` element: its `uses-permission` and `application` children, and the rest of it. */
  datatype ManifestRoot = ManifestRoot(
    usesPermission: Option<seq<XmlElement>>,
    application: Option<seq<Application>>,
    others: map<string, string>)

  /** The manifest document; `manifest` is its root element, when there is one. */
  datatype AndroidManifest = AndroidManifest(manifest: Option<ManifestRoot>)

  /** The permissions the plugin makes sure of, in the order it adds them. */
  const RequiredPermissions: seq<string> := [
    "android.permission.RECORD_AUDIO",
    "android.permission.FOREGROUND_SERVICE",
    "android.permission.FOREGROUND_SERVICE_MICROPHONE",
    "android.permission.POST_NOTIFICATIONS"
  ]

  /** `{ $: { 'android:name': name } }`. */
  function PermissionElement(name: string): (e: XmlElement)
    ensures NameOf(e) == Some(name)
  {
    XmlElement(Some(map["android:name" := name]))
  }

  /** The name of the recording foreground service. */
  const ServiceName := "com.meetingnotes.app.RecordingForegroundService"

  /** The service element the plugin adds: enabled, not exported, of foreground type microphone. */
  const RecordingService := XmlElement(Some(map[
    "android:name" := ServiceName,
    "android:enabled" := "true",
    "android:exported" := "false",
    "android:foregroundServiceType" := "microphone"]))

  /** No name occurs twice. */
  predicate Distinct(names: seq<string>) {
    forall i, j :: 0 <= i < j < |names| ==> names[i] != names[j]
  }

  /**
   The `for` loop over the required permissions: each name is looked up in
   the list as it has grown so far and appended when missing. The result
   begins with the original list and declares every name.
   */
  function AddMissing(es: seq<XmlElement>, names: seq<string>): (r: seq<XmlElement>)
    ensures |es| <= |r| && r[..|es|] == es
    ensures forall n :: n in names ==> Declares(r, n)
    ensures forall n :: Declares(es, n) ==> Declares(r, n)
    decreases |names|
  {
    if names == [] then es
    else
      var grown := if Declares(es, names[0]) then es else es + [PermissionElement(names[0])];
      assert grown[..|es|] == es;
      assert Declares(grown, names[0]) by {
        if !Declares(es, names[0]) {
          assert PermissionElement(names[0]) in grown;
        }
      }
      assert forall n :: Declares(es, n) ==> Declares(grown, n) by {
        forall n | Declares(es, n) ensures Declares(grown, n) {
          var e :| e in es && NameOf(e) == Some(n);
          assert e in grown;
        }
      }
      var r := AddMissing(grown, names[1..]);
      assert r[..|es|] == r[..|grown|][..|es|];
      assert forall n :: n in names ==> n == names[0] || n in names[1..];
      r
  }

  /** The names in `names`, in order, that `es` does not declare: a reference for what the loop appends. */
  function Undeclared(es: seq<XmlElement>, names: seq<string>): (r: seq<string>)
    ensures forall n :: n in r ==> n in names && !Declares(es, n)
    ensures |r| <= |names|
  {
    if names == [] then []
    else (if Declares(es, names[0]) then [] else [names[0]]) + Undeclared(es, names[1..])
  }

  /** The elements for a list of permission names. */
  function Elements(names: seq<string>): (r: seq<XmlElement>)
    ensures |r| == |names|
    ensures forall i :: 0 <= i < |names| ==> r[i] == PermissionElement(names[i])
  {
    if names == [] then [] else [PermissionElement(names[0])] + Elements(names[1..])
  }

  /** Appending `n`'s element changes which other names are undeclared in no way. */
  lemma {:induction false} UndeclaredSkipsAdded(es: seq<XmlElement>, n: string, names: seq<string>)
    requires n !in names
    ensures Undeclared(es + [PermissionElement(n)], names) == Undeclared(es, names)
    decreases |names|
  {
    if names != [] {
      var es' := es + [PermissionElement(n)];
      assert Declares(es', names[0]) == Declares(es, names[0]) by {
        if Declares(es', names[0]) {
          var e :| e in es' && NameOf(e) == Some(names[0]);
          assert e in es;
        }
      }
      UndeclaredSkipsAdded(es, n, names[1..]);
    }
  }

  /** The tail of a distinct list is distinct and lacks its head. */
  lemma DistinctTail(names: seq<string>)
    requires Distinct(names) && names != []
    ensures Distinct(names[1..]) && names[0] !in names[1..]
  {
    var rest := names[1..];
    forall i, j | 0 <= i < j < |rest| ensures rest[i] != rest[j] {
      assert rest[i] == names[i + 1] && rest[j] == names[j + 1];
    }
    forall k | 0 <= k < |rest| ensures rest[k] != names[0] {
      assert rest[k] == names[k + 1];
    }
  }

  /**
   For distinct names, checking against the growing list appends exactly the
   names the original list lacks, in order: the loop equals the reference.
   */
  lemma {:induction false} AddMissingAppendsUndeclared(es: seq<XmlElement>, names: seq<string>)
    requires Distinct(names)
    ensures AddMissing(es, names) == es + Elements(Undeclared(es, names))
    decreases |names|
  {
    if names == [] {
      assert es + Elements([]) == es;
    } else {
      var n := names[0];
      var rest := names[1..];
      DistinctTail(names);
      if Declares(es, n) {
        assert AddMissing(es, names) == AddMissing(es, rest);
        assert Undeclared(es, names) == Undeclared(es, rest);
        AddMissingAppendsUndeclared(es, rest);
      } else {
        var grown := es + [PermissionElement(n)];
        assert AddMissing(es, names) == AddMissing(grown, rest);
        assert Undeclared(es, names) == [n] + Undeclared(es, rest);
        AddMissingAppendsUndeclared(grown, rest);
        UndeclaredSkipsAdded(es, n, rest);
        AppendOneElement(es, n, Undeclared(es, rest));
      }
    }
  }

  /** Appending `n`'s element and then those of `u` appends the elements of `[n] + u`. */
  lemma AppendOneElement(es: seq<XmlElement>, n: string, u: seq<string>)
    ensures es + [PermissionElement(n)] + Elements(u) == es + Elements([n] + u)
  {
    assert ([n] + u)[1..] == u;
  }

  /** The undeclared names of a distinct list are distinct. */
  lemma {:induction false} UndeclaredDistinct(es: seq<XmlElement>, names: seq<string>)
    requires Distinct(names)
    ensures Distinct(Undeclared(es, names))
    decreases |names|
  {
    if names != [] {
      var rest := names[1..];
      DistinctTail(names);
      UndeclaredDistinct(es, rest);
      var u := Undeclared(es, rest);
      var h := if Declares(es, names[0]) then [] else [names[0]];
      assert forall k :: 0 <= k < |u| ==> u[k] in u;
      assert forall i, j :: 0 <= i < j < |h + u| ==> (h + u)[i] != (h + u)[j] by {
        forall i, j | 0 <= i < j < |h + u| ensures (h + u)[i] != (h + u)[j] {
          if i < |h| {
            assert (h + u)[j] == u[j - |h|];
          } else {
            assert (h + u)[i] == u[i - |h|] && (h + u)[j] == u[j - |h|];
          }
        }
      }
    }
  }

  /** The required permissions are four distinct names. */
  lemma RequiredDistinct()
    ensures Distinct(RequiredPermissions)
  {
  }

  /**
   The permission step on an existing list: the old entries stay first and
   in order, exactly the required names it lacked are appended, each once
   and in the required order, and afterwards every required name is
   declared.
   */
  lemma PermissionMerge(es: seq<XmlElement>)
    ensures AddMissing(es, RequiredPermissions) == es + Elements(Undeclared(es, RequiredPermissions))
    ensures Distinct(Undeclared(es, RequiredPermissions))
  {
    RequiredDistinct();
    AddMissingAppendsUndeclared(es, RequiredPermissions);
    UndeclaredDistinct(es, RequiredPermissions);
  }

  /** A list that already declares every name gains nothing. */
  lemma {:induction false} AddMissingNoop(es: seq<XmlElement>, names: seq<string>)
    requires forall n :: n in names ==> Declares(es, n)
    ensures AddMissing(es, names) == es
    decreases |names|
  {
    if names != [] {
      assert forall n :: n in names[1..] ==> n in names;
      AddMissingNoop(es, names[1..]);
    }
  }

  /**
   The service step on the main application: the recording service is
   appended only when no service has its name; the existing services stay
   in order.
   */
  function AddService(app: Application): (r: Application)
    ensures r.services.Some? && Declares(r.services.value, ServiceName)
    ensures Declares(app.services.GetOr([]), ServiceName) ==> r == app
    ensures !Declares(app.services.GetOr([]), ServiceName) ==>
      r == app.(services := Some(app.services.GetOr([]) + [RecordingService]))
    ensures r.others == app.others
  {
    var services := app.services.GetOr([]);
    if Declares(services, ServiceName) then app
    else
      var services' := services + [RecordingService];
      assert RecordingService in services' && NameOf(RecordingService) == Some(ServiceName);
      app.(services := Some(services'))
  }

  /** `manifest.manifest?.application?.[0]` exists. */
  predicate HasMainApplication(m: AndroidManifest) {
    m.manifest.Some? && m.manifest.value.application.Some? && |m.manifest.value.application.value| > 0
  }

  /** The main application element. */
  function MainApplication(m: AndroidManifest): Application
    requires HasMainApplication(m)
  {
    m.manifest.value.application.value[0]
  }

  /**
   `withBackgroundAudioAndroid`. Without a main application the manifest is
   returned unchanged. Otherwise `uses-permission` becomes the old list with
   the missing required permissions appended (an empty list when there was
   none), and the main application gets the recording service when it lacks
   it; the other applications and everything else are untouched.
   */
  function WithBackgroundAudioAndroid(m: AndroidManifest): (r: AndroidManifest)
    ensures !HasMainApplication(m) ==> r == m
    ensures HasMainApplication(m) ==>
      && HasMainApplication(r)
      && var root := m.manifest.value;
      && var root' := r.manifest.value;
      && root'.usesPermission == Some(AddMissing(root.usesPermission.GetOr([]), RequiredPermissions))
      && MainApplication(r) == AddService(MainApplication(m))
      && root'.application.value[1..] == root.application.value[1..]
      && root'.others == root.others
  {
    if !HasMainApplication(m) then m
    else
      var root := m.manifest.value;
      var apps := root.application.value;
      var perms := AddMissing(root.usesPermission.GetOr([]), RequiredPermissions);
      var apps' := [AddService(apps[0])] + apps[1..];
      assert apps'[1..] == apps[1..];
      AndroidManifest(Some(root.(usesPermission := Some(perms), application := Some(apps'))))
  }

  // --------------------------------------------------------------- plugin

  /**
   A manifest with a main application that declares every required
   permission and, in that application, the recording service.
   */
  predicate DeclaresEverything(m: AndroidManifest) {
    && HasMainApplication(m)
    && m.manifest.value.usesPermission.Some?
    && (forall n :: n in RequiredPermissions ==> Declares(m.manifest.value.usesPermission.value, n))
    && MainApplication(m).services.Some?
    && Declares(MainApplication(m).services.value, ServiceName)
  }

  /** After the Android step on a manifest with a main application, everything is declared. */
  lemma AndroidDeclaresEverything(m: AndroidManifest)
    requires HasMainApplication(m)
    ensures DeclaresEverything(WithBackgroundAudioAndroid(m))
  {
  }

  /** `longer` starts with `es`. */
  predicate StartsWith(longer: seq<XmlElement>, es: seq<XmlElement>) {
    |es| <= |longer| && longer[..|es|] == es
  }

  /**
   `m'` keeps what `m` declared: the old `uses-permission` entries stay first
   and in order, so do the main application's old services, and the other
   applications, the main application's other fields and the rest of the
   root element are unchanged.
   */
  predicate KeepsExisting(m: AndroidManifest, m': AndroidManifest) {
    && HasMainApplication(m) && HasMainApplication(m')
    && StartsWith(m'.manifest.value.usesPermission.GetOr([]), m.manifest.value.usesPermission.GetOr([]))
    && KeepsApplications(m, m')
    && m'.manifest.value.others == m.manifest.value.others
  }

  /** The application part of `KeepsExisting`. */
  predicate KeepsApplications(m: AndroidManifest, m': AndroidManifest)
    requires HasMainApplication(m) && HasMainApplication(m')
  {
    && StartsWith(MainApplication(m').services.GetOr([]), MainApplication(m).services.GetOr([]))
    && MainApplication(m').others == MainApplication(m).others
    && m'.manifest.value.application.value[1..] == m.manifest.value.application.value[1..]
  }

  /** The service step only adds: the old services and the other fields are kept. */
  lemma AndroidKeepsApplications(m: AndroidManifest)
    requires HasMainApplication(m)
    ensures HasMainApplication(WithBackgroundAudioAndroid(m))
    ensures KeepsApplications(m, WithBackgroundAudioAndroid(m))
  {
    var services := MainApplication(m).services.GetOr([]);
    if !Declares(services, ServiceName) {
      assert (services + [RecordingService])[..|services|] == services;
    }
  }

  /** The Android step only adds: everything the manifest declared is kept. */
  lemma AndroidKeepsExisting(m: AndroidManifest)
    requires HasMainApplication(m)
    ensures KeepsExisting(m, WithBackgroundAudioAndroid(m))
  {
    var r := WithBackgroundAudioAndroid(m);
    var perms := m.manifest.value.usesPermission.GetOr([]);
    assert StartsWith(r.manifest.value.usesPermission.GetOr([]), perms) by {
      PermissionMerge(perms);
      var extra := Elements(Undeclared(perms, RequiredPermissions));
      assert r.manifest.value.usesPermission.GetOr([]) == perms + extra;
      assert (perms + extra)[..|perms|] == perms;
    }
    AndroidKeepsApplications(m);
  }

  /** The parts of the Expo config the plugin's two mods act on. */
  datatype ExpoConfig = ExpoConfig(infoPlist: InfoPlist, androidManifest: AndroidManifest)

  /**
   `withBackgroundAudio`: the iOS step, then the Android step. Afterwards the
   plist lists the audio background mode and has a usage text, and a
   manifest with a main application declares every required permission and
   the recording service; a manifest without one is left alone.
   */
  function WithBackgroundAudio(c: ExpoConfig): (r: ExpoConfig)
    ensures r.infoPlist.backgroundModes.Some? && AudioMode in r.infoPlist.backgroundModes.value
    ensures c.infoPlist.backgroundModes.Some? ==>
      && |c.infoPlist.backgroundModes.value| <= |r.infoPlist.backgroundModes.value|
      && r.infoPlist.backgroundModes.value[..|c.infoPlist.backgroundModes.value|] == c.infoPlist.backgroundModes.value
    ensures Truthy(r.infoPlist.micUsage)
    ensures Truthy(c.infoPlist.micUsage) ==> r.infoPlist.micUsage == c.infoPlist.micUsage
    ensures r.infoPlist.others == c.infoPlist.others
    ensures !HasMainApplication(c.androidManifest) ==> r.androidManifest == c.androidManifest
    ensures HasMainApplication(c.androidManifest) ==> KeepsExisting(c.androidManifest, r.androidManifest)
    ensures HasMainApplication(c.androidManifest) ==> DeclaresEverything(r.androidManifest)
  {
    var ios := WithBackgroundAudioIOS(c.infoPlist);
    var android := WithBackgroundAudioAndroid(c.androidManifest);
    assert |DefaultMicUsage| > 0;
    if HasMainApplication(c.androidManifest) then
      AndroidDeclaresEverything(c.androidManifest);
      AndroidKeepsExisting(c.androidManifest);
      c.(infoPlist := ios, androidManifest := android)
    else c.(infoPlist := ios, androidManifest := android)
  }

  /** Applying the iOS step to its own output changes nothing. */
  lemma IOSIdempotent(p: InfoPlist)
    ensures WithBackgroundAudioIOS(WithBackgroundAudioIOS(p)) == WithBackgroundAudioIOS(p)
  {
  }

  /** Applying the Android step to its own output changes nothing. */
  lemma AndroidIdempotent(m: AndroidManifest)
    ensures WithBackgroundAudioAndroid(WithBackgroundAudioAndroid(m)) == WithBackgroundAudioAndroid(m)
  {
    if HasMainApplication(m) {
      var r := WithBackgroundAudioAndroid(m);
      var perms := r.manifest.value.usesPermission.value;
      AddMissingNoop(perms, RequiredPermissions);
      var r2 := WithBackgroundAudioAndroid(r);
      assert r2.manifest.value.application.value == [MainApplication(r)] + r.manifest.value.application.value[1..];
      assert r.manifest.value.application.value == [MainApplication(r)] + r.manifest.value.application.value[1..];
    }
  }

  /** The plugin is idempotent: running it twice gives the config running it once gives. */
  lemma WithBackgroundAudioIdempotent(c: ExpoConfig)
    ensures WithBackgroundAudio(WithBackgroundAudio(c)) == WithBackgroundAudio(c)
  {
    IOSIdempotent(c.infoPlist);
    AndroidIdempotent(c.androidManifest);
  }
}
