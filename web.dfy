/**
 * The web service's stream orchestration step: addNewStreams, which walks
 * the refreshed video and audio sources and creates and starts a stream
 * for every name not registered yet, and the isRunning gate that
 * Reconfigure puts in front of it. Also the write-once filter that strips
 * the XML document-type lines from a response body.
 */
module Web {
  import opened Wrappers
  import opened WebStream

  // ---------------------------------------------------------------------
  // Specification of addNewStreams

  datatype Kind = Video | Audio

  /** The stream configuration addNewStreams builds for source `name`:
      the name and the encoder factory of its kind from the service's
      stream config `sc`, the other factory unset. */
  function ConfigFor(kind: Kind, name: string, sc: StreamConfig): StreamConfig
  {
    match kind
    case Video => StreamConfig(name, sc.videoEncoder, false)
    case Audio => StreamConfig(name, false, sc.audioEncoder)
  }

  /** Whether `sc` holds the encoder factory for `kind`. */
  predicate KindEncoder(kind: Kind, sc: StreamConfig)
  {
    match kind
    case Video => sc.videoEncoder
    case Audio => sc.audioEncoder
  }

  /** The catalog once every name of `unseen` is created as a stream of
      `kind` and started. */
  function Register(c: Catalog, unseen: set<string>, kind: Kind, sc: StreamConfig): Catalog
  {
    Catalog(
      c.streams + (map n | n in unseen :: Stream(ConfigFor(kind, n, sc))),
      if kind == Video then c.videoStarted + unseen else c.videoStarted,
      if kind == Audio then c.audioStarted + unseen else c.audioStarted)
  }

  /** The catalog after a walk, and whether a CreateStream error cut the
      walk short. */
  datatype Outcome = Outcome(catalog: Catalog, aborted: bool)

  /** One of the two loops of addNewStreams, whatever the order of the
      names: names already registered are skipped; the others are created
      and started, unless the kind's encoder factory is missing, in which
      case the first of them fails and the loop returns with nothing of
      this kind created. */
  function WalkSources(c: Catalog, names: set<string>, kind: Kind, sc: StreamConfig): Outcome
  {
    var unseen := names - c.streams.Keys;
    if unseen != {} && !KindEncoder(kind, sc) then Outcome(c, true)
    else Outcome(Register(c, unseen, kind, sc), false)
  }

  /** addNewStreams with a stream config: the video walk (skipped entirely
      on Windows), then, unless it failed, the audio walk. */
  function AddNewStreamsOutcome(c: Catalog, cameras: set<string>, microphones: set<string>,
                                sc: StreamConfig, windows: bool): Outcome
  {
    var v := if windows then Outcome(c, false) else WalkSources(c, cameras, Video, sc);
    if v.aborted then v else WalkSources(v.catalog, microphones, Audio, sc)
  }

  /** What one run of addNewStreams does to the catalog, once the server is
      initialised and its sources are refreshed. */
  predicate AddNewStreamsEffect(before: Catalog, after: Catalog, err: Option<StreamError>,
                                cameras: set<string>, microphones: set<string>,
                                streamConfig: Option<StreamConfig>, windows: bool)
  {
    match streamConfig
    case None => after == before && err == None
    case Some(sc) =>
      var o := AddNewStreamsOutcome(before, cameras, microphones, sc, windows);
      && after == o.catalog
      && (err.Some? <==> o.aborted)
      && (err.Some? ==> err.value.name in cameras + microphones && err.value.name !in before.streams)
  }

  lemma RegisterNothing(c: Catalog, kind: Kind, sc: StreamConfig)
    ensures Register(c, {}, kind, sc) == c
  {
    assert c.streams + (map n | n in {} :: Stream(ConfigFor(kind, n, sc))) == c.streams;
  }

  /** CreateStream of a new name followed by its Start*Stream call. */
  function StartNew(c: Catalog, name: string, kind: Kind, sc: StreamConfig): Catalog
  {
    Catalog(c.streams[name := Stream(ConfigFor(kind, name, sc))],
            if kind == Video then c.videoStarted + {name} else c.videoStarted,
            if kind == Audio then c.audioStarted + {name} else c.audioStarted)
  }

  /** Registering one more name is one more create-and-start step. */
  lemma RegisterOneMore(c: Catalog, unseen: set<string>, name: string, kind: Kind, sc: StreamConfig)
    requires name !in unseen
    ensures Register(c, unseen + {name}, kind, sc) == StartNew(Register(c, unseen, kind, sc), name, kind, sc)
  {
    var m := map n | n in unseen :: Stream(ConfigFor(kind, n, sc));
    var m' := map n | n in unseen + {name} :: Stream(ConfigFor(kind, n, sc));
    assert m' == m[name := Stream(ConfigFor(kind, name, sc))];
    assert c.streams + m' == (c.streams + m)[name := Stream(ConfigFor(kind, name, sc))];
  }

  /** One iteration of a walk, in terms of the walk over the names seen so
      far: what CreateStream finds and what the catalog becomes. */
  lemma WalkStep(c0: Catalog, walked: set<string>, name: string, kind: Kind, sc: StreamConfig)
    requires name !in walked
    requires !WalkSources(c0, walked, kind, sc).aborted
    ensures var c := WalkSources(c0, walked, kind, sc).catalog;
      var next := WalkSources(c0, walked + {name}, kind, sc);
      && (name in c.streams <==> name in c0.streams)
      && (name in c.streams ==> next == Outcome(c, false))
      && (name !in c.streams && !KindEncoder(kind, sc) ==> c == c0 && next == Outcome(c0, true))
      && (name !in c.streams && KindEncoder(kind, sc) ==>
            next == Outcome(StartNew(c, name, kind, sc), false))
  {
    WalkKeepsRegistered(c0, walked, name, kind, sc);
    if name in c0.streams {
      WalkStepRegistered(c0, walked, name, kind, sc);
    } else if KindEncoder(kind, sc) {
      WalkStepNew(c0, walked, name, kind, sc);
    } else {
      WalkStepNoEncoder(c0, walked, name, kind, sc);
    }
  }

  lemma WalkStepNoEncoder(c0: Catalog, walked: set<string>, name: string, kind: Kind, sc: StreamConfig)
    requires name !in walked && name !in c0.streams && !KindEncoder(kind, sc)
    requires !WalkSources(c0, walked, kind, sc).aborted
    ensures WalkSources(c0, walked, kind, sc).catalog == c0
    ensures WalkSources(c0, walked + {name}, kind, sc) == Outcome(c0, true)
  {
    var unseen := walked - c0.streams.Keys;
    assert unseen == {};
    RegisterNothing(c0, kind, sc);
    assert walked + {name} - c0.streams.Keys == unseen + {name};
  }

  lemma WalkKeepsRegistered(c0: Catalog, walked: set<string>, name: string, kind: Kind, sc: StreamConfig)
    requires name !in walked
    requires !WalkSources(c0, walked, kind, sc).aborted
    ensures name in WalkSources(c0, walked, kind, sc).catalog.streams <==> name in c0.streams
  {
  }

  lemma WalkStepRegistered(c0: Catalog, walked: set<string>, name: string, kind: Kind, sc: StreamConfig)
    requires name in c0.streams
    requires !WalkSources(c0, walked, kind, sc).aborted
    ensures WalkSources(c0, walked + {name}, kind, sc) == WalkSources(c0, walked, kind, sc)
  {
    assert walked + {name} - c0.streams.Keys == walked - c0.streams.Keys;
  }

  lemma WalkStepNew(c0: Catalog, walked: set<string>, name: string, kind: Kind, sc: StreamConfig)
    requires name !in walked && name !in c0.streams && KindEncoder(kind, sc)
    ensures WalkSources(c0, walked + {name}, kind, sc)
         == Outcome(StartNew(WalkSources(c0, walked, kind, sc).catalog, name, kind, sc), false)
  {
    var unseen := walked - c0.streams.Keys;
    assert walked + {name} - c0.streams.Keys == unseen + {name};
    RegisterOneMore(c0, unseen, name, kind, sc);
  }

  lemma WalkKeepsValid(c: Catalog, names: set<string>, kind: Kind, sc: StreamConfig)
    requires CatalogValid(c)
    ensures CatalogValid(WalkSources(c, names, kind, sc).catalog)
  {
  }

  lemma AddNewStreamsKeepsValid(c: Catalog, cameras: set<string>, microphones: set<string>,
                                sc: StreamConfig, windows: bool)
    requires CatalogValid(c)
    ensures CatalogValid(AddNewStreamsOutcome(c, cameras, microphones, sc, windows).catalog)
  {
    if !windows {
      WalkKeepsValid(c, cameras, Video, sc);
      WalkKeepsValid(WalkSources(c, cameras, Video, sc).catalog, microphones, Audio, sc);
    } else {
      WalkKeepsValid(c, microphones, Audio, sc);
    }
  }

  /** Registered streams stay as they are. The names started by a run are
      exactly the names it created, each as video for a camera or as audio
      for a microphone, never as both. */
  lemma StartsOnlyNewStreams(c: Catalog, cameras: set<string>, microphones: set<string>,
                             sc: StreamConfig, windows: bool)
    requires CatalogValid(c)
    ensures var o := AddNewStreamsOutcome(c, cameras, microphones, sc, windows).catalog;
      && (forall n :: n in c.streams ==> n in o.streams && o.streams[n] == c.streams[n])
      && c.videoStarted <= o.videoStarted && c.audioStarted <= o.audioStarted
      && (o.videoStarted - c.videoStarted) + (o.audioStarted - c.audioStarted)
           == o.streams.Keys - c.streams.Keys
      && (o.videoStarted - c.videoStarted) !! (o.audioStarted - c.audioStarted)
      && o.videoStarted - c.videoStarted <= cameras
      && o.audioStarted - c.audioStarted <= microphones
  {
    var v := if windows then Outcome(c, false) else WalkSources(c, cameras, Video, sc);
    var m := v.catalog;
    if windows {
      assert m == c && m.streams.Keys - c.streams.Keys == {};
    } else {
      WalkStartsOnlyNew(c, cameras, Video, sc);
    }
    if v.aborted {
      assert m == c && m.streams.Keys - c.streams.Keys == {};
      ChainStarts(c, m, m, cameras, microphones);
    } else {
      WalkKeepsValid(c, cameras, Video, sc);
      WalkStartsOnlyNew(m, microphones, Audio, sc);
      ChainStarts(c, m, WalkSources(m, microphones, Audio, sc).catalog, cameras, microphones);
    }
  }

  /** One walk keeps every registered stream, adds only names it was
      given, and marks each added name started as its kind. */
  lemma WalkStartsOnlyNew(c: Catalog, names: set<string>, kind: Kind, sc: StreamConfig)
    requires CatalogValid(c)
    ensures var o := WalkSources(c, names, kind, sc).catalog;
      var added := o.streams.Keys - c.streams.Keys;
      && (forall n :: n in c.streams ==> n in o.streams && o.streams[n] == c.streams[n])
      && added <= names && CatalogValid(o)
      && o.videoStarted == (if kind == Video then c.videoStarted + added else c.videoStarted)
      && o.audioStarted == (if kind == Audio then c.audioStarted + added else c.audioStarted)
  {
    var unseen := names - c.streams.Keys;
    if unseen != {} && !KindEncoder(kind, sc) {
      assert c.streams.Keys - c.streams.Keys == {};
    } else {
      RegisterAdds(c, unseen, kind, sc);
    }
  }

  lemma RegisterAdds(c: Catalog, unseen: set<string>, kind: Kind, sc: StreamConfig)
    requires CatalogValid(c) && unseen !! c.streams.Keys
    ensures var o := Register(c, unseen, kind, sc);
      && o.streams.Keys - c.streams.Keys == unseen
      && (forall n :: n in c.streams ==> n in o.streams && o.streams[n] == c.streams[n])
      && CatalogValid(o)
  {
    var o := Register(c, unseen, kind, sc);
    assert o.streams.Keys == c.streams.Keys + unseen;
  }

  /** The steps WalkStartsOnlyNew describes, a video one from `c` to `m`
      and an audio one from `m` to `o`, chained. */
  predicate Chained(c: Catalog, m: Catalog, o: Catalog, cameras: set<string>, microphones: set<string>)
  {
    && (forall n :: n in c.streams ==> n in m.streams && m.streams[n] == c.streams[n])
    && (forall n :: n in m.streams ==> n in o.streams && o.streams[n] == m.streams[n])
    && CatalogValid(c) && CatalogValid(m)
    && m.streams.Keys - c.streams.Keys <= cameras
    && o.streams.Keys - m.streams.Keys <= microphones
    && m.videoStarted == c.videoStarted + (m.streams.Keys - c.streams.Keys)
    && m.audioStarted == c.audioStarted
    && o.audioStarted == m.audioStarted + (o.streams.Keys - m.streams.Keys)
    && o.videoStarted == m.videoStarted
  }

  lemma ChainStarts(c: Catalog, m: Catalog, o: Catalog, cameras: set<string>, microphones: set<string>)
    requires Chained(c, m, o, cameras, microphones)
    ensures && (forall n :: n in c.streams ==> n in o.streams && o.streams[n] == c.streams[n])
      && c.videoStarted <= o.videoStarted && c.audioStarted <= o.audioStarted
      && (o.videoStarted - c.videoStarted) + (o.audioStarted - c.audioStarted)
           == o.streams.Keys - c.streams.Keys
      && (o.videoStarted - c.videoStarted) !! (o.audioStarted - c.audioStarted)
      && o.videoStarted - c.videoStarted <= cameras
      && o.audioStarted - c.audioStarted <= microphones
  {
    assert c.streams.Keys <= m.streams.Keys <= o.streams.Keys;
    KeySetsChain(c.streams.Keys, m.streams.Keys, o.streams.Keys, c.videoStarted, c.audioStarted);
  }

  /** The set algebra behind ChainStarts: names added in two steps, on top
      of names that were already there. */
  lemma KeySetsChain(k0: set<string>, k1: set<string>, k2: set<string>, v0: set<string>, a0: set<string>)
    requires v0 <= k0 && a0 <= k0 && k0 <= k1 <= k2
    ensures (v0 + (k1 - k0)) - v0 == k1 - k0
    ensures (a0 + (k2 - k1)) - a0 == k2 - k1
    ensures (k1 - k0) + (k2 - k1) == k2 - k0
    ensures (k1 - k0) !! (k2 - k1)
  {
  }

  /** Running the step again on an unchanged source set gives the same
      result: on a second run no stream is created or started. */
  lemma AddNewStreamsIdempotent(c: Catalog, cameras: set<string>, microphones: set<string>,
                                sc: StreamConfig, windows: bool)
    ensures var o := AddNewStreamsOutcome(c, cameras, microphones, sc, windows);
      AddNewStreamsOutcome(o.catalog, cameras, microphones, sc, windows) == o
  {
    var o := AddNewStreamsOutcome(c, cameras, microphones, sc, windows);
    var v := if windows then Outcome(c, false) else WalkSources(c, cameras, Video, sc);
    if !windows {
      RegisterNothing(o.catalog, Video, sc);
      if !v.aborted {
        assert cameras - o.catalog.streams.Keys == {};
      } else {
        assert o == v && v.catalog == c;
      }
    }
    if !v.aborted {
      RegisterNothing(o.catalog, Audio, sc);
      var w := WalkSources(v.catalog, microphones, Audio, sc);
      if !w.aborted {
        assert microphones - o.catalog.streams.Keys == {};
      }
    }
  }

  /** The names of `c` started as `kind`. */
  function StartedOf(c: Catalog, kind: Kind): set<string>
  {
    match kind
    case Video => c.videoStarted
    case Audio => c.audioStarted
  }

  /** A second run of addNewStreams with the same sources makes no start
      call: `before` and `log` are a start log of `kind` before and after
      the second run, whose effect and fresh start calls AddNewStreams
      ensures, and the first run left the catalog `first`. */
  lemma RerunStartsNothing(c: Catalog, cameras: set<string>, microphones: set<string>,
                           sc: StreamConfig, windows: bool, kind: Kind,
                           after: Catalog, err: Option<StreamError>,
                           before: seq<string>, log: seq<string>)
    requires CatalogValid(c)
    requires var first := AddNewStreamsOutcome(c, cameras, microphones, sc, windows).catalog;
      && AddNewStreamsEffect(first, after, err, cameras, microphones, Some(sc), windows)
      && Names(before) == StartedOf(first, kind) && Names(log) == StartedOf(after, kind)
      && FreshStarts(before, log, first.streams.Keys)
    ensures log == before
  {
    var first := AddNewStreamsOutcome(c, cameras, microphones, sc, windows).catalog;
    AddNewStreamsIdempotent(c, cameras, microphones, sc, windows);
    AddNewStreamsKeepsValid(c, cameras, microphones, sc, windows);
    assert after == first;
    NoNewNameNoStart(before, log, first.streams.Keys);
  }

  /** On Windows no video stream is created or started; the audio sources
      are still processed. */
  lemma WindowsSkipsVideo(c: Catalog, cameras: set<string>, microphones: set<string>, sc: StreamConfig)
    ensures var o := AddNewStreamsOutcome(c, cameras, microphones, sc, true);
      && o == WalkSources(c, microphones, Audio, sc)
      && o.catalog.videoStarted == c.videoStarted
      && o.catalog.streams.Keys - c.streams.Keys <= microphones
  {
  }

  /** A CreateStream error ends the walk: no audio stream is started, and
      an error in the video walk leaves the catalog as it was. */
  lemma FailureStopsTheWalk(c: Catalog, cameras: set<string>, microphones: set<string>,
                            sc: StreamConfig, windows: bool)
    ensures var o := AddNewStreamsOutcome(c, cameras, microphones, sc, windows);
      && (o.aborted ==> o.catalog.audioStarted == c.audioStarted)
      && (o.aborted ==> o.catalog.streams.Keys - c.streams.Keys <= cameras)
      && (!windows && WalkSources(c, cameras, Video, sc).aborted ==> o == Outcome(c, true))
  {
  }

  // ---------------------------------------------------------------------
  // The web service

  /** The source directory of `kind`. */
  function SourcesOf(s: Server, kind: Kind): set<string>
    reads s
  {
    match kind
    case Video => s.videoSources
    case Audio => s.audioSources
  }

  /** The start log of `kind`. */
  function StartsOf(s: Server, kind: Kind): seq<string>
    reads s
  {
    match kind
    case Video => s.videoStarts
    case Audio => s.audioStarts
  }

  /** One loop of addNewStreams: for every source of `kind`, CreateStream,
      skip the name if it was already registered, start it otherwise, and
      return the first CreateStream error. */
  method StartNewStreams(s: Server, kind: Kind, sc: StreamConfig) returns (err: Option<StreamError>)
    requires s.Valid()
    modifies s
    ensures s.Valid()
    ensures s.videoSources == old(s.videoSources) && s.audioSources == old(s.audioSources)
    ensures var o := WalkSources(old(s.Registry()), SourcesOf(s, kind), kind, sc);
      && s.Registry() == o.catalog
      && (err.Some? <==> o.aborted)
      && (err.Some? ==> err.value.name in SourcesOf(s, kind) && err.value.name !in old(s.streams))
    ensures FreshStarts(old(StartsOf(s, kind)), StartsOf(s, kind), old(s.streams.Keys))
    ensures kind == Video ==> s.audioStarts == old(s.audioStarts)
    ensures kind == Audio ==> s.videoStarts == old(s.videoStarts)
  {
    ghost var c0 := s.Registry();
    RegisterNothing(c0, kind, sc);
    var pending := SourcesOf(s, kind);
    ghost var walked: set<string> := {};
    while pending != {}
      invariant s.Valid()
      invariant s.videoSources == old(s.videoSources) && s.audioSources == old(s.audioSources)
      invariant pending !! walked && pending + walked == SourcesOf(s, kind)
      invariant WalkSources(c0, walked, kind, sc) == Outcome(s.Registry(), false)
      invariant FreshStarts(old(StartsOf(s, kind)), StartsOf(s, kind), c0.streams.Keys)
      invariant forall i :: |old(StartsOf(s, kind))| <= i < |StartsOf(s, kind)| ==> StartsOf(s, kind)[i] in s.streams
      invariant c0.streams.Keys <= s.streams.Keys
      invariant kind == Video ==> s.audioStarts == old(s.audioStarts)
      invariant kind == Audio ==> s.videoStarts == old(s.videoStarts)
      decreases pending
    {
      var name :| name in pending;
      WalkStep(c0, walked, name, kind, sc);
      ghost var keys := s.streams.Keys;
      var stream, alreadyRegistered, e := s.CreateStream(ConfigFor(kind, name, sc), name);
      if e.Some? {
        return e;
      }
      if !alreadyRegistered {
        FreshStartsAppend(old(StartsOf(s, kind)), StartsOf(s, kind), c0.streams.Keys, keys, name);
        if kind == Video {
          s.StartVideoStream(stream.value);
        } else {
          s.StartAudioStream(stream.value);
        }
      }
      pending := pending - {name};
      walked := walked + {name};
    }
    return None;
  }

  /** StreamServer: the stream server (nil until initialised) and whether
      any stream needs a WebRTC connection. */
  datatype StreamServer = StreamServer(server: Server?, hasStreams: bool)

  datatype WebError = UpdateResourcesFailed | StreamCreation(cause: StreamError)

  class WebService {
    var streamServer: Option<StreamServer>
    var streamConfig: Option<StreamConfig>
    var isRunning: bool
    /** runtime.GOOS == "windows" */
    const windows: bool

    /** streamInitialized */
    predicate StreamInitialized()
      reads this
    {
      streamServer.Some? && streamServer.value.server != null
    }

    method AddNewStreams(cameras: set<string>, microphones: set<string>) returns (err: Option<StreamError>)
      requires StreamInitialized() ==> streamServer.value.server.Valid()
      modifies if StreamInitialized() then {streamServer.value.server} else {}
      ensures !StreamInitialized() ==> err == None
      ensures StreamInitialized() ==>
        var s := streamServer.value.server;
        && s.Valid()
        && s.videoSources == cameras && s.audioSources == microphones
        && AddNewStreamsEffect(old(s.Registry()), s.Registry(), err, cameras, microphones,
                               streamConfig, windows)
        && FreshStarts(old(s.videoStarts), s.videoStarts, old(s.streams.Keys))
        && FreshStarts(old(s.audioStarts), s.audioStarts, old(s.streams.Keys))
    {
      if !StreamInitialized() {
        return None;
      }
      var s := streamServer.value.server;
      s.RefreshVideoSources(cameras);
      s.RefreshAudioSources(microphones);
      if streamConfig.None? {
        return None;
      }
      var sc := streamConfig.value;
      if !windows {
        err := StartNewStreams(s, Video, sc);
        if err.Some? {
          return;
        }
      }
      // video streaming is not supported on Windows: the video loop breaks
      // before its first iteration
      ghost var keys := s.streams.Keys;
      err := StartNewStreams(s, Audio, sc);
      assert old(s.streams.Keys) <= keys;
    }

    /** Reconfigure, after the resource update (whether it failed is given
        as `updateFailed`): the stream step runs only while the service is
        running. */
    method Reconfigure(cameras: set<string>, microphones: set<string>, updateFailed: bool)
      returns (err: Option<WebError>)
      requires StreamInitialized() ==> streamServer.value.server.Valid()
      modifies if StreamInitialized() then {streamServer.value.server} else {}
      ensures updateFailed ==>
        err == Some(UpdateResourcesFailed) && (StreamInitialized() ==> unchanged(streamServer.value.server))
      ensures !updateFailed && !isRunning ==>
        err == None && (StreamInitialized() ==> unchanged(streamServer.value.server))
      ensures !updateFailed && isRunning && !StreamInitialized() ==> err == None
      ensures !updateFailed && isRunning && StreamInitialized() ==>
        var s := streamServer.value.server;
        && s.Valid()
        && s.videoSources == cameras && s.audioSources == microphones
        && (err.Some? ==> err.value.StreamCreation?)
        && AddNewStreamsEffect(old(s.Registry()), s.Registry(),
                               if err.Some? then Some(err.value.cause) else None,
                               cameras, microphones, streamConfig, windows)
        && FreshStarts(old(s.videoStarts), s.videoStarts, old(s.streams.Keys))
        && FreshStarts(old(s.audioStarts), s.audioStarts, old(s.streams.Keys))
    {
      if updateFailed {
        return Some(UpdateResourcesFailed);
      }
      if !isRunning {
        return None;
      }
      var e := AddNewStreams(cameras, microphones);
      err := if e.Some? then Some(StreamCreation(e.value)) else None;
    }
  }

  // ---------------------------------------------------------------------
  // filterXML

  newtype byte = b: int | 0 <= b < 256

  const Newline: byte := 10

  /** The number of document-type lines filterXML drops. */
  const DtdLines: nat := 6

  function NewlineCount(s: seq<byte>): nat
  {
    if s == [] then 0 else (if s[0] == Newline then 1 else 0) + NewlineCount(s[1..])
  }

  /** bytes.Split(s, "\n"): the segments between newlines, one more than
      there are newlines, none of them holding a newline. */
  function Split(s: seq<byte>): (lines: seq<seq<byte>>)
    ensures |lines| == NewlineCount(s) + 1
    ensures forall i :: 0 <= i < |lines| ==> Newline !in lines[i]
  {
    if s == [] then [[]]
    else
      var rest := Split(s[1..]);
      if s[0] == Newline then [[]] + rest
      else [[s[0]] + rest[0]] + rest[1..]
  }

  /** bytes.Join(lines, "\n") */
  function Join(lines: seq<seq<byte>>): seq<byte>
  {
    if |lines| == 0 then []
    else if |lines| == 1 then lines[0]
    else lines[0] + [Newline] + Join(lines[1..])
  }

  /** The body filterXML hands on: the input without its first six lines. */
  function StripDtd(bs: seq<byte>): seq<byte>
    requires |Split(bs)| >= DtdLines
  {
    Join(Split(bs)[DtdLines..])
  }

  /** What follows the `n`-th newline of `s`, or nothing when `s` has
      fewer than `n` newlines. */
  function AfterNewlines(s: seq<byte>, n: nat): seq<byte>
  {
    if n == 0 then s
    else if s == [] then []
    else if s[0] == Newline then AfterNewlines(s[1..], n - 1)
    else AfterNewlines(s[1..], n)
  }

  /** Dropping lines only ever removes a prefix. */
  lemma {:induction false} AfterNewlinesIsSuffix(s: seq<byte>, n: nat)
    ensures var r := AfterNewlines(s, n); |r| <= |s| && r == s[|s| - |r|..]
  {
    if n != 0 && s != [] {
      AfterNewlinesIsSuffix(s[1..], if s[0] == Newline then n - 1 else n);
    }
  }

  lemma {:induction false} JoinSplit(s: seq<byte>)
    ensures Join(Split(s)) == s
  {
    if s != [] {
      var rest := Split(s[1..]);
      JoinSplit(s[1..]);
      if s[0] == Newline {
        assert ([[]] + rest)[1..] == rest;
      } else if |rest| > 1 {
        assert ([[s[0]] + rest[0]] + rest[1..])[1..] == rest[1..];
      }
    }
  }

  /** Splitting text that starts with a newline-free chunk `x`. */
  lemma {:induction false} SplitPrefix(x: seq<byte>, y: seq<byte>)
    requires Newline !in x
    ensures Split(x + y) == [x + Split(y)[0]] + Split(y)[1..]
  {
    if x != [] {
      assert (x + y)[1..] == x[1..] + y;
      SplitPrefix(x[1..], y);
      assert [x[0]] + (x[1..] + Split(y)[0]) == x + Split(y)[0];
    } else {
      assert x + y == y;
      assert Split(y) == [Split(y)[0]] + Split(y)[1..];
      assert x + Split(y)[0] == Split(y)[0];
    }
  }

  lemma {:induction false} SplitJoin(lines: seq<seq<byte>>)
    requires |lines| >= 1
    requires forall i :: 0 <= i < |lines| ==> Newline !in lines[i]
    ensures Split(Join(lines)) == lines
  {
    if |lines| == 1 {
      SplitPrefix(lines[0], []);
      assert lines[0] + [] == lines[0];
    } else {
      var tail := Join(lines[1..]);
      SplitJoin(lines[1..]);
      assert Join(lines) == lines[0] + ([Newline] + tail);
      SplitPrefix(lines[0], [Newline] + tail);
      assert ([Newline] + tail)[1..] == tail;
      assert Split([Newline] + tail) == [[]] + lines[1..];
      assert lines[0] + [] == lines[0];
    }
  }

  lemma {:induction false} DropLines(s: seq<byte>, k: nat)
    requires k <= |Split(s)|
    ensures Join(Split(s)[k..]) == AfterNewlines(s, k)
  {
    if k == 0 {
      JoinSplit(s);
      assert Split(s)[0..] == Split(s);
    } else if s == [] {
      assert Split(s) == [[]];
    } else if s[0] == Newline {
      DropLines(s[1..], k - 1);
      SplitTailAtNewline(s, k);
    } else {
      DropLines(s[1..], k);
      SplitTailAtOther(s, k);
    }
  }

  lemma SplitTailAtNewline(s: seq<byte>, k: nat)
    requires s != [] && s[0] == Newline && 1 <= k <= |Split(s)|
    ensures Split(s)[k..] == Split(s[1..])[k - 1..]
  {
    assert Split(s) == [[]] + Split(s[1..]);
  }

  lemma SplitTailAtOther(s: seq<byte>, k: nat)
    requires s != [] && s[0] != Newline && 1 <= k <= |Split(s)|
    ensures Split(s)[k..] == Split(s[1..])[k..]
  {
    var rest := Split(s[1..]);
    assert Split(s) == [[s[0]] + rest[0]] + rest[1..];
  }

  /** The filtered body is what follows the sixth newline of the input
      (empty when the input has exactly five). */
  lemma StripDtdAfterSixthNewline(bs: seq<byte>)
    requires |Split(bs)| >= DtdLines
    ensures StripDtd(bs) == AfterNewlines(bs, DtdLines)
  {
    DropLines(bs, DtdLines);
  }

  datatype WriteError = WriteMoreThanOnce | ResponseWriteFailed

  /** Stand-in for the http.ResponseWriter filterXML wraps: it records every
      slice it is handed, and either accepts it whole or fails. */
  class ResponseWriter {
    var received: seq<seq<byte>>
    var body: seq<byte>
    var failing: bool

    method Write(bs: seq<byte>) returns (n: int, err: Option<WriteError>)
      modifies this
      ensures received == old(received) + [bs] && failing == old(failing)
      ensures !failing ==> n == |bs| && err == None && body == old(body) + bs
      ensures failing ==> n == 0 && err == Some(ResponseWriteFailed) && body == old(body)
    {
      received := received + [bs];
      if failing {
        return 0, Some(ResponseWriteFailed);
      }
      body := body + bs;
      return |bs|, None;
    }
  }

  class FilterXML {
    var called: bool
    const w: ResponseWriter

    constructor (w: ResponseWriter)
      ensures !called && this.w == w
    {
      called := false;
      this.w := w;
    }

    /** Write: the first successful call hands `w` the input without its
        first six lines; every call after that fails and writes nothing.
        With fewer than six lines the slice in the source panics. */
    method Write(bs: seq<byte>) returns (n: int, err: Option<WriteError>)
      requires !called ==> |Split(bs)| >= DtdLines
      modifies this, w
      ensures old(called) ==> n == 0 && err == Some(WriteMoreThanOnce) && called && unchanged(w)
      ensures !old(called) ==> w.received == old(w.received) + [StripDtd(bs)] && w.failing == old(w.failing)
      ensures !old(called) ==> (err == None <==> !w.failing) && called == (err == None)
      ensures !old(called) && err == None ==> n == |StripDtd(bs)| && w.body == old(w.body) + StripDtd(bs)
      ensures !old(called) && err != None ==>
        n == 0 && err == Some(ResponseWriteFailed) && w.body == old(w.body)
    {
      if called {
        return 0, Some(WriteMoreThanOnce);
      }
      var lines := Split(bs);
      lines := lines[DtdLines..];
      var filtered := Join(lines);
      n, err := w.Write(filtered);
      if err == None {
        called := true;
      }
    }
  }
}
