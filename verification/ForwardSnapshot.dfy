/** The settings snapshot a forward job keeps (core-service/internal/app/forward.go): the routes of
    the source topic, and whether the lookup of a route's record finds it. */
module ForwardSnapshot {
  import opened ForwardDelivery
  import ForwardRoutes

  /** A setting as it is saved: its route list, if it has one, went through the validation. */
  ghost predicate Validated(setting: ForwardRoutes.Setting) {
    setting.Routes? ==> ForwardRoutes.Normalized(ForwardRoutes.Objects(setting.entries))
  }

  type SavedSetting = setting: ForwardRoutes.Setting | Validated(setting) witness ForwardRoutes.Malformed

  /** Caption and protection settings of a selected route. */
  datatype Style = Style(protect: bool, custom: bool, emptyCaption: bool, captionError: bool)

  /** What a job is made from: the group's setting, the message's topic, and the switches. */
  datatype Source = Source(setting: SavedSetting, topic: nat, styles: nat -> Style, enabled: bool, scanDirect: bool,
                           directForward: bool, deleteAfter: bool, hasMessage: bool, hasSource: bool)

  /** The lookup with the trimmed destination of route i finds record i. */
  predicate FindsOwn(selected: seq<ForwardRoutes.Route>, i: nat)
    requires i < |selected|
  {
    ForwardRoutes.DestinationIndex(selected, ForwardRoutes.Trim(selected[i].destination),
                                   selected[i].destinationTopic) == i
  }

  /** The records of the first n routes. */
  function RecordSettings(selected: seq<ForwardRoutes.Route>, styles: nat -> Style, n: nat): (r: seq<Settings>)
    requires n <= |selected|
    ensures |r| == n
  {
    if n == 0 then [] else
      var style := styles(n - 1);
      RecordSettings(selected, styles, n - 1)
      + [Settings(style.protect, style.custom, style.emptyCaption, style.captionError, FindsOwn(selected, n - 1))]
  }

  function SelectedRoutes(source: Source): seq<ForwardRoutes.Route> {
    ForwardRoutes.Matching(source.setting, source.topic)
  }

  function Snapshot(source: Source): Config {
    Config(source.enabled, source.scanDirect, source.directForward, source.deleteAfter, source.hasMessage,
           source.hasSource,
           RecordSettings(SelectedRoutes(source), source.styles, |SelectedRoutes(source)|))
  }

  /** Every record of the job is found by its lookup. */
  predicate Indexed(c: Config) {
    forall k :: 0 <= k < |c.routes| ==> c.routes[k].indexed
  }

  lemma {:induction false} RecordIsOwn(selected: seq<ForwardRoutes.Route>, styles: nat -> Style, n: nat, k: nat)
    requires k < n <= |selected|
    ensures RecordSettings(selected, styles, n)[k].indexed == FindsOwn(selected, k)
  {
    if k < n - 1 {
      RecordIsOwn(selected, styles, n - 1, k);
    }
  }

  /** A setting without a route list whose destination has outer blanks. */
  predicate Untrimmed(setting: ForwardRoutes.Setting) {
    setting.Legacy? && ForwardRoutes.Trim(setting.whole.destination) != setting.whole.destination
  }

  /** A lookup never finds the record of another route, ... */
  lemma LookupNeverElsewhere(source: Source, k: nat)
    requires k < |SelectedRoutes(source)|
    ensures var selected := SelectedRoutes(source);
            ForwardRoutes.DestinationIndex(selected, ForwardRoutes.Trim(selected[k].destination),
                                           selected[k].destinationTopic)
              == if Untrimmed(source.setting) then -1 else k
  {
    var selected := SelectedRoutes(source);
    match source.setting
    case Legacy(whole) =>
      assert selected == [whole];
      assert ForwardRoutes.DestinationIndex([whole][1..], ForwardRoutes.Trim(whole.destination),
                                            whole.destinationTopic) == -1;
    case Malformed =>
    case Routes(entries) => ForwardRoutes.IndexOfSelectedRoute(entries, source.topic, k);
  }

  /** ... and every record of a job is found if and only if the setting is no untrimmed legacy one. */
  lemma SnapshotIndexed(source: Source)
    ensures Indexed(Snapshot(source)) <==> !Untrimmed(source.setting)
  {
    var selected := SelectedRoutes(source);
    forall k | 0 <= k < |selected| ensures Snapshot(source).routes[k].indexed == !Untrimmed(source.setting) {
      RecordIsOwn(selected, source.styles, |selected|, k);
      LookupNeverElsewhere(source, k);
    }
    if Untrimmed(source.setting) {
      assert selected == [source.setting.whole];
      assert !Snapshot(source).routes[0].indexed;
    }
  }
}
