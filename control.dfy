/** The worker's control surface: the `message` listener's switch on the message type, and the
    `sync` listener's routing of a background-sync tag to the sync it runs. Each sync ends by
    broadcasting a completion message to the open pages. */
module Control {
  import opened Wrappers
  import opened CacheModel
  import opened Caches
  import opened Lifecycle

  /** The message types the switch recognises; `Unknown` is every other type, and a message
      without data or without a type. */
  datatype Command = SkipWaiting | GetVersion | ClearCache | ForceSync | CacheStatusQuery | Unknown

  /** The `type` string of a command, `None` for `Unknown`. */
  function MessageType(c: Command): Option<string> {
    match c
    case SkipWaiting => Some("SKIP_WAITING")
    case GetVersion => Some("GET_VERSION")
    case ClearCache => Some("CLEAR_CACHE")
    case ForceSync => Some("IOS_FORCE_SYNC")
    case CacheStatusQuery => Some("IOS_CACHE_STATUS")
    case Unknown => None
  }

  /** The `switch (type)` of the message listener; `None` when `event.data` or its `type` is missing. */
  function ParseCommand(msgType: Option<string>): Command {
    match msgType
    case None => Unknown
    case Some(t) =>
      if t == "SKIP_WAITING" then SkipWaiting
      else if t == "GET_VERSION" then GetVersion
      else if t == "CLEAR_CACHE" then ClearCache
      else if t == "IOS_FORCE_SYNC" then ForceSync
      else if t == "IOS_CACHE_STATUS" then CacheStatusQuery
      else Unknown
  }

  /** Parsing and the type strings are inverse: each known command's type parses back to it, and a
      type that parses to a known command is that command's type. */
  lemma ParseCommandInverse(msgType: Option<string>, c: Command)
    ensures c != Unknown ==> ParseCommand(MessageType(c)) == c
    ensures ParseCommand(msgType) != Unknown ==> MessageType(ParseCommand(msgType)) == msgType
    ensures MessageType(c).Some? <==> c != Unknown
  {
  }

  /** The two background syncs. */
  datatype SyncTask = DataSync | DiarySync

  /** The tag that schedules a sync. */
  function TagOf(t: SyncTask): string {
    match t
    case DataSync => "ios-sync-data"
    case DiarySync => "ios-sync-diary"
  }

  /** The `sync` listener: the sync a tag runs, `None` for every other tag. */
  function SyncForTag(tag: string): Option<SyncTask> {
    if tag == "ios-sync-data" then Some(DataSync)
    else if tag == "ios-sync-diary" then Some(DiarySync)
    else None
  }

  /** The message type a sync broadcasts when it completes. */
  function CompletionMessage(t: SyncTask): string {
    match t
    case DataSync => "IOS_SYNC_COMPLETE"
    case DiarySync => "IOS_DIARY_SYNC_COMPLETE"
  }

  /** Tags and syncs correspond one to one, and the two syncs announce themselves differently. */
  lemma SyncRouting(tag: string, t: SyncTask)
    ensures SyncForTag(TagOf(t)) == Some(t)
    ensures SyncForTag(tag).Some? ==> TagOf(SyncForTag(tag).value) == tag
    ensures CompletionMessage(DataSync) != CompletionMessage(DiarySync)
  {
    assert CompletionMessage(DataSync)[4] != CompletionMessage(DiarySync)[4];
  }

  /** What the worker answers on the message's port (`event.ports[0]`). */
  datatype Reply = VersionReply(version: string) | ClearReply(success: bool) | StatusReply(cacheStatus: CacheStatus)

  /** A call into the platform that the model leaves abstract. */
  datatype Effect = NoEffect | SkipWaitingRequested | Broadcast(messageType: string)

  /** The `sync` listener: the sync a tag selects broadcasts its completion message; other tags do nothing. */
  function HandleSync(tag: string): Effect {
    match SyncForTag(tag)
    case Some(t) => Broadcast(CompletionMessage(t))
    case None => NoEffect
  }

  /** The `message` listener, given the command `ParseCommand` reads from the message's type. A reply
      goes out only when the message came with a port; `rejected` names the deletions of `CLEAR_CACHE`
      that fail, in which case no reply is sent. */
  method HandleMessage(storage: CacheStorage, command: Command, hasPort: bool, rejected: set<string>)
    returns (reply: Option<Reply>, effect: Effect)
    requires storage.Valid()
    modifies storage
    ensures storage.Valid()
    ensures command in {SkipWaiting, GetVersion, ForceSync, Unknown} ==> unchanged(storage)
    ensures command == SkipWaiting ==> reply == None && effect == SkipWaitingRequested
    ensures command == GetVersion ==>
      reply == (if hasPort then Some(VersionReply(CacheName)) else None) && effect == NoEffect
    ensures command == ClearCache ==>
      && reply == (if hasPort && StaticCacheName !in rejected && DynamicCacheName !in rejected && CacheName !in rejected then Some(ClearReply(true)) else None)
      && effect == NoEffect
      && storage.stores == old(storage.stores) - (CurrentNames - rejected)
      && storage.names == Deleted(Deleted(Deleted(old(storage.names), StaticCacheName, rejected), DynamicCacheName, rejected), CacheName, rejected)
    ensures command == ForceSync ==> reply == None && effect == HandleSync(TagOf(DataSync))
    ensures command == CacheStatusQuery ==>
      var staticCount := Count(old(storage.ContentsOf(StaticCacheName)));
      var dynamicCount := Count(old(storage.ContentsOf(DynamicCacheName)));
      && reply == (if hasPort then Some(StatusReply(CacheStatus(staticCount, dynamicCount, staticCount + dynamicCount, MaxEntries))) else None)
      && effect == NoEffect
      && storage.names == Opened(Opened(old(storage.names), StaticCacheName), DynamicCacheName)
      && forall n :: storage.ContentsOf(n) == old(storage.ContentsOf(n))
    ensures command == Unknown ==> reply == None && effect == NoEffect
  {
    reply := None;
    effect := NoEffect;
    match command
    case SkipWaiting =>
      effect := SkipWaitingRequested;
    case GetVersion =>
      if hasPort {
        reply := Some(VersionReply(CacheName));
      }
    case ClearCache =>
      var replied := storage.ClearCache(rejected);
      if replied && hasPort {
        reply := Some(ClearReply(true));
      }
    case ForceSync =>
      effect := HandleSync(TagOf(DataSync));
    case CacheStatusQuery =>
      var status := storage.CacheStatusOf();
      if hasPort {
        reply := Some(StatusReply(status));
      }
    case Unknown =>
  }
}
