/**
 * The stream server the web service drives (webstream.Server), reduced to
 * what the web service relies on: the refreshed video and audio source
 * directories, the catalog of streams by name with its duplicate check,
 * and the log of the video and audio streams started, one entry per start.
 */
module WebStream {
  import opened Wrappers

  /** gostream.StreamConfig as far as stream creation cares: the stream's
      name and whether a video / audio encoder factory is set. */
  datatype StreamConfig = StreamConfig(name: string, videoEncoder: bool, audioEncoder: bool)

  /** gostream.Stream: created once from its configuration. */
  datatype Stream = Stream(config: StreamConfig)

  datatype StreamError = CreateStreamFailed(name: string)

  /** A stream can only be built with at least one encoder factory. */
  predicate HasEncoder(config: StreamConfig)
  {
    config.videoEncoder || config.audioEncoder
  }

  /** The registration state of a server: streams by name, and the names
      that have had a video or an audio stream started. */
  datatype Catalog = Catalog(streams: map<string, Stream>,
                             videoStarted: set<string>, audioStarted: set<string>)

  /** Only registered streams are started. */
  predicate CatalogValid(c: Catalog)
  {
    c.videoStarted <= c.streams.Keys && c.audioStarted <= c.streams.Keys
  }

  /** The names in a start log. */
  function Names(log: seq<string>): set<string>
  {
    set n | n in log
  }

  /** The start calls `log` holds beyond its prefix `before` are each for a
      name `known` does not hold, and no two of them are for the same name. */
  ghost predicate FreshStarts(before: seq<string>, log: seq<string>, known: set<string>)
  {
    && before <= log
    && (forall i :: |before| <= i < |log| ==> log[i] !in known)
    && (forall i, j :: |before| <= i < j < |log| ==> log[i] != log[j])
  }

  /** One more start call, for a name not among the streams `current`
      that already hold every name known and every earlier fresh call. */
  lemma FreshStartsAppend(before: seq<string>, log: seq<string>, known: set<string>,
                          current: set<string>, name: string)
    requires FreshStarts(before, log, known) && known <= current && name !in current
    requires forall i :: |before| <= i < |log| ==> log[i] in current
    ensures FreshStarts(before, log + [name], known)
    ensures forall i :: |before| <= i < |log + [name]| ==> (log + [name])[i] in current + {name}
  {
  }

  /** Fresh start calls that name nothing new were never made: a log whose
      names were all known already has not grown. */
  lemma NoNewNameNoStart(before: seq<string>, log: seq<string>, known: set<string>)
    requires FreshStarts(before, log, known)
    requires Names(log) <= known
    ensures log == before
  {
    assert log == before + log[|before|..];
    assert Names(before) <= Names(log);
    FreshStartsCount(before, log, known);
    assert Names(log) - Names(before) == {};
  }

  /** Fresh start calls are exactly the new names of the log, once each:
      there are as many calls as new names. */
  lemma FreshStartsCount(before: seq<string>, log: seq<string>, known: set<string>)
    requires FreshStarts(before, log, known) && Names(before) <= known
    ensures Names(log) - Names(before) == Names(log[|before|..])
    ensures |log| - |before| == |Names(log) - Names(before)|
  {
    var calls := log[|before|..];
    assert log == before + calls;
    assert Names(log) == Names(before) + Names(calls);
    assert Names(calls) !! Names(before);
    DistinctNames(calls);
  }

  /** A log without repeats names as many names as it has entries. */
  lemma {:induction false} DistinctNames(log: seq<string>)
    requires forall i, j :: 0 <= i < j < |log| ==> log[i] != log[j]
    ensures |Names(log)| == |log|
  {
    if log != [] {
      var init := log[..|log| - 1];
      var last := log[|log| - 1];
      assert log == init + [last];
      assert Names(log) == Names(init) + {last};
      assert last !in Names(init);
      DistinctNames(init);
    }
  }

  class Server {
    var videoSources: set<string>
    var audioSources: set<string>
    var streams: map<string, Stream>
    /** the names passed to StartVideoStream / StartAudioStream, in call
        order, repeats included */
    var videoStarts: seq<string>
    var audioStarts: seq<string>

    function Registry(): Catalog
      reads this
    {
      Catalog(streams, Names(videoStarts), Names(audioStarts))
    }

    ghost predicate Valid()
      reads this
    {
      CatalogValid(Registry())
    }

    /** NewServer: no sources known, nothing registered. */
    constructor ()
      ensures Valid()
      ensures videoSources == {} && audioSources == {}
      ensures Registry() == Catalog(map[], {}, {})
    {
      videoSources, audioSources := {}, {};
      streams, videoStarts, audioStarts := map[], [], [];
    }

    /** RefreshVideoSources: the video directory is rebuilt from the names
        of the robot's current camera resources, not patched. */
    method RefreshVideoSources(cameras: set<string>)
      modifies this
      ensures videoSources == cameras && audioSources == old(audioSources)
      ensures streams == old(streams) && videoStarts == old(videoStarts) && audioStarts == old(audioStarts)
    {
      videoSources := cameras;
    }

    /** RefreshAudioSources: likewise for the audio input resources. */
    method RefreshAudioSources(microphones: set<string>)
      modifies this
      ensures audioSources == microphones && videoSources == old(videoSources)
      ensures streams == old(streams) && videoStarts == old(videoStarts) && audioStarts == old(audioStarts)
    {
      audioSources := microphones;
    }

    /** CreateStream: returns the stream already registered under `name`
        with `alreadyRegistered` set; otherwise builds one from `config`,
        which fails when the configuration carries no encoder factory. */
    method CreateStream(config: StreamConfig, name: string)
      returns (stream: Option<Stream>, alreadyRegistered: bool, err: Option<StreamError>)
      requires Valid()
      modifies this
      ensures Valid()
      ensures videoSources == old(videoSources) && audioSources == old(audioSources)
      ensures videoStarts == old(videoStarts) && audioStarts == old(audioStarts)
      ensures name in old(streams) ==>
        && stream == Some(old(streams)[name]) && alreadyRegistered && err == None
        && streams == old(streams)
      ensures name !in old(streams) && !HasEncoder(config) ==>
        && stream == None && !alreadyRegistered && err == Some(CreateStreamFailed(name))
        && streams == old(streams)
      ensures name !in old(streams) && HasEncoder(config) ==>
        && stream == Some(Stream(config)) && !alreadyRegistered && err == None
        && streams == old(streams)[name := Stream(config)]
    {
      if name in streams {
        return Some(streams[name]), true, None;
      }
      if !HasEncoder(config) {
        return None, false, Some(CreateStreamFailed(name));
      }
      streams := streams[name := Stream(config)];
      return Some(Stream(config)), false, None;
    }

    /** StartVideoStream: starts one more video stream under the stream's
        name, whether or not one is running already. */
    method StartVideoStream(stream: Stream)
      requires Valid()
      requires stream.config.name in streams
      modifies this
      ensures Valid()
      ensures videoStarts == old(videoStarts) + [stream.config.name]
      ensures Registry() == old(Registry()).(videoStarted := old(Registry()).videoStarted + {stream.config.name})
      ensures videoSources == old(videoSources) && audioSources == old(audioSources)
      ensures streams == old(streams) && audioStarts == old(audioStarts)
    {
      assert Names(videoStarts + [stream.config.name]) == Names(videoStarts) + {stream.config.name};
      videoStarts := videoStarts + [stream.config.name];
    }

    /** StartAudioStream: likewise for an audio stream. */
    method StartAudioStream(stream: Stream)
      requires Valid()
      requires stream.config.name in streams
      modifies this
      ensures Valid()
      ensures audioStarts == old(audioStarts) + [stream.config.name]
      ensures Registry() == old(Registry()).(audioStarted := old(Registry()).audioStarted + {stream.config.name})
      ensures videoSources == old(videoSources) && audioSources == old(audioSources)
      ensures streams == old(streams) && videoStarts == old(videoStarts)
    {
      assert Names(audioStarts + [stream.config.name]) == Names(audioStarts) + {stream.config.name};
      audioStarts := audioStarts + [stream.config.name];
    }
  }
}
