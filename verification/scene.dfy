/** The plugin's state as the operators and panels see it: the four
    connection settings (held both in the add-on preferences and on the
    scene), the flattened shot list, the panel state, and the episode
    document the service returns. */
module SceneState {
  import opened Common
  import opened Text

  /** The endpoint a fresh scene shows before anything is configured. */
  const DefaultEndpoint := "https://your-app.com/api/external"

  /** The four connection settings. The add-on preferences and the scene's
      API settings each hold one copy. */
  datatype Config = Config(endpoint: string, apiKey: string, showId: string, episodeId: string)

  const EmptyConfig := Config("", "", "", "")

  datatype ConfigField = Endpoint | ApiKey | ShowId | EpisodeId

  function FieldOf(c: Config, f: ConfigField): string {
    match f
    case Endpoint => c.endpoint
    case ApiKey => c.apiKey
    case ShowId => c.showId
    case EpisodeId => c.episodeId
  }

  /** `c` with field `f` set to `v`. */
  function WithField(c: Config, f: ConfigField, v: string): (r: Config)
    ensures FieldOf(r, f) == v
    ensures forall g :: g != f ==> FieldOf(r, g) == FieldOf(c, g)
  {
    match f
    case Endpoint => c.(endpoint := v)
    case ApiKey => c.(apiKey := v)
    case ShowId => c.(showId := v)
    case EpisodeId => c.(episodeId := v)
  }

  /** Every connection setting is filled in. */
  predicate Complete(c: Config) {
    c.endpoint != "" && c.apiKey != "" && c.showId != "" && c.episodeId != ""
  }

  /** The scene's API settings: its copy of the connection settings and the
      "configured" flag. */
  datatype ApiSettings = ApiSettings(config: Config, isConfigured: bool)

  /** The scene's API settings before anything is configured. */
  const DefaultApiSettings := ApiSettings(EmptyConfig.(endpoint := DefaultEndpoint), false)

  /** A shot's number as the service sends it, printed with `str()`. */
  datatype ShotNumber = NumberedShot(n: int) | NamedShot(name: string)

  function ShotNumberText(n: ShotNumber): string {
    match n
    case NumberedShot(i) => Decimal(i)
    case NamedShot(s) => s
  }

  /** A shot of the episode document; a missing key is `None`. */
  datatype ShotDoc = ShotDoc(
    id: Option<string>,
    shotNumber: Option<ShotNumber>,
    audio: Option<string>,
    visual: Option<string>,
    imageUrl: Option<string>,
    imageThread: map<string, string>)

  /** A segment of the episode document; a missing key is `None`, and
      missing `shots` is the empty list. */
  datatype SegmentDoc = SegmentDoc(
    id: Option<string>,
    segmentNumber: Option<int>,
    title: Option<string>,
    shots: seq<ShotDoc>)

  /** The `data` of an episode reply, reduced to its `avScript.segments`
      list (empty when either key is missing). */
  datatype EpisodeDoc = EpisodeDoc(segments: seq<SegmentDoc>)

  /** A row of the scene's shot list. */
  datatype ShotItem = ShotItem(
    shotId: string,
    shotLabel: string,
    audio: string,
    visual: string,
    mainImageUrl: string,
    startFrameUrl: string,
    endFrameUrl: string,
    segmentId: string,
    segmentNumber: int,
    segmentTitle: string)

  /** The image slot a render is uploaded to. */
  datatype ImageType = NoImage | MainImage | StartFrame | EndFrame

  /** The panel state the modelled operators read and write. */
  datatype PluginState = PluginState(
    selectedSegmentId: string,
    selectedShotId: string,
    selectedImageType: ImageType,
    episodeData: Option<EpisodeDoc>,
    isLoadingEpisode: bool,
    isUploadingImage: bool,
    renderedImagePath: string,
    showRenderPreview: bool,
    shotsPage: int)
}
