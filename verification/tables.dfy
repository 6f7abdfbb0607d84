/**
 * The table screen (`TablesActivity`): on creation it connects if needed and fills the spinner
 * with the server's listing; its two buttons ask the server to learn or load a tree and react to
 * the status string it replies.
 */
module Tables {
  import opened Wrappers
  import opened Decimal
  import opened Wire
  import opened Session

  /** The two sources the screen is opened for (the static `ID`). */
  const FROM_DB := 1
  const FROM_FILE := 2

  /** The error messages the screen shows. */
  datatype Message = DataErrorMsg | TableNotFoundMsg | FileNotFoundMsg | NoTablesMsg | NoFilesMsg

  /** The screens a button opens. */
  datatype Screen = PrintScreen | PredictScreen

  /** What the screen does with a status reply. */
  datatype Reaction = ErrorMessage(msg: Message) | Open(screen: Screen) | NoAction

  /**
   * The reply dispatch of both buttons: `target` is the print screen for the print button and
   * the predict screen for the predict button.
   */
  function Dispatch(id: int, reply: string, target: Screen): (r: Reaction)
    ensures r.Open? <==> (id == FROM_DB || id == FROM_FILE) && reply == OK
    ensures r.Open? ==> r.screen == target
    ensures r == ErrorMessage(DataErrorMsg) <==> id == FROM_DB && reply == DATA_ERROR
    ensures r == ErrorMessage(TableNotFoundMsg) <==> id == FROM_DB && reply == TABLE_NOT_FOUND
    ensures r == ErrorMessage(FileNotFoundMsg) <==> id == FROM_FILE && reply == FILE_NOT_FOUND
    ensures r.ErrorMessage? ==> r.msg in {DataErrorMsg, TableNotFoundMsg, FileNotFoundMsg}
  {
    if id == FROM_DB then
      if reply == DATA_ERROR then ErrorMessage(DataErrorMsg)
      else if reply == TABLE_NOT_FOUND then ErrorMessage(TableNotFoundMsg)
      else if reply == OK then Open(target)
      else NoAction
    else if id == FROM_FILE then
      if reply == FILE_NOT_FOUND then ErrorMessage(FileNotFoundMsg)
      else if reply == OK then Open(target)
      else NoAction
    else NoAction
  }

  /** The two buttons differ only in the screen they open. */
  lemma ButtonsAgreeExceptTarget(id: int, reply: string)
    ensures Dispatch(id, reply, PrintScreen).Open? <==> Dispatch(id, reply, PredictScreen).Open?
    ensures !Dispatch(id, reply, PrintScreen).Open? ==>
              Dispatch(id, reply, PrintScreen) == Dispatch(id, reply, PredictScreen)
  {
  }

  /** What `onCreate` ends with. */
  datatype Shown = Listed | Notice(msg: Message) | ServerUnreachable | NoListing | Crash

  /** The sentinel that marks an empty catalogue for a source. */
  function Sentinel(id: int): string
  {
    if id == FROM_DB then NO_TABLES_FOUND else NO_FILES_FOUND
  }

  /**
   * The listing step of `onCreate` on the reply of `getTablesFromDb`/`getFilesFromArchive`: the
   * outcome and the spinner's items. A list containing the sentinel gives an error message and no
   * items; any other list becomes the items in its own order; `null` throws.
   */
  function Listing(id: int, reply: Option<seq<string>>): (r: (Shown, seq<string>))
    requires id == FROM_DB || id == FROM_FILE
    ensures r.0 == Crash <==> reply.None?
    ensures r.0 == Listed <==> reply.Some? && Sentinel(id) !in reply.value
    ensures r.0 == Listed ==> r.1 == reply.value && Sentinel(id) !in r.1
    ensures r.0.Notice? <==> reply.Some? && Sentinel(id) in reply.value
    ensures r.0.Notice? ==> r.0.msg == (if id == FROM_DB then NoTablesMsg else NoFilesMsg)
    ensures r.0 != Listed ==> r.1 == []
  {
    match reply
    case None => (Crash, [])
    case Some(names) =>
      if Sentinel(id) in names then (Notice(if id == FROM_DB then NoTablesMsg else NoFilesMsg), [])
      else (Listed, names)
  }

  /** What a button press ends with. */
  datatype Press = LostConnection | Reacted(reaction: Reaction) | Thrown

  /**
   * The class's static state: `ID`, which source the screen lists. It outlives every screen, so
   * a screen opened without a bundle lists the source of the previous one.
   */
  class TablesStatics {
    var id: int

    constructor ()
      ensures id == 0
    {
      id := 0;
    }
  }

  class TablesActivity {
    /** The session: the client's single instance. */
    const client: Client
    const statics: TablesStatics
    /** The items of the spinner. */
    var items: seq<string>

    /** A new screen shares the client's instance and the static state; its spinner is empty. */
    constructor (app: Statics, statics: TablesStatics)
      ensures client == app.GetInstance() && this.statics == statics && items == []
      ensures statics.id == old(statics.id)
    {
      client := app.GetInstance();
      this.statics := statics;
      items := [];
    }

    /**
     * `onCreate`: takes the source from the bundle, connects only when not connected, and lists
     * the source only when connected afterwards. `attempt` is how a connect would end.
     */
    method OnCreate(bundle: Option<int>, attempt: ConnectAttempt) returns (shown: Shown)
      requires client.Valid()
      modifies this, statics`id, client`socketContainer, client`connected
      ensures statics.id == if bundle.Some? then bundle.value else old(statics.id)
      ensures client.Valid() && client.ip == old(client.ip) && client.port == old(client.port)
      ensures client.connected <==> old(client.connected) || attempt.Opened?
      ensures !client.connected ==> shown == ServerUnreachable && items == []
      ensures client.connected && statics.id != FROM_DB && statics.id != FROM_FILE ==>
                shown == NoListing && items == []
      ensures !client.connected || (statics.id != FROM_DB && statics.id != FROM_FILE) ==>
                client.socketContainer ==
                  if old(client.connected) then old(client.socketContainer)
                  else AfterConnect(old(client.socketContainer), attempt)
      ensures client.connected && (statics.id == FROM_DB || statics.id == FROM_FILE) ==>
                var start := if old(client.connected) then old(client.Chan()) else Channel([], attempt.replies, false);
                var (d, reply) := ListingExchange(start, if statics.id == FROM_DB then 1 else 2);
                client.Chan() == d && (shown, items) == Listing(statics.id, reply)
    {
      if bundle.Some? {
        statics.id := bundle.value;
      }
      items := [];
      if !client.connected {
        client.Connect(attempt);
      }
      if client.connected {
        if statics.id == FROM_DB {
          var tables := client.GetTablesFromDb();
          shown, items := Listing(FROM_DB, tables).0, Listing(FROM_DB, tables).1;
        } else if statics.id == FROM_FILE {
          var files := client.GetFilesFromArchive();
          shown, items := Listing(FROM_FILE, files).0, Listing(FROM_FILE, files).1;
        } else {
          shown := NoListing;
        }
      } else {
        shown := ServerUnreachable;
      }
    }

    /**
     * The print button (`target == PrintScreen`) or the predict button (`PredictScreen`) with the
     * spinner at position `selection`. `networkAbsent` is the network probe's answer.
     */
    method OnButton(target: Screen, networkAbsent: bool, selection: nat) returns (p: Press)
      requires items != [] ==> selection < |items| && client.HasChannel()
      modifies client`socketContainer
      ensures networkAbsent ==> p == LostConnection && client.socketContainer == old(client.socketContainer)
      ensures !networkAbsent && statics.id != FROM_DB && statics.id != FROM_FILE ==>
                p == Reacted(NoAction) && client.socketContainer == old(client.socketContainer)
      ensures !networkAbsent && (statics.id == FROM_DB || statics.id == FROM_FILE) && items == [] ==>
                p == Thrown && client.socketContainer == old(client.socketContainer)
      ensures !networkAbsent && (statics.id == FROM_DB || statics.id == FROM_FILE) && items != [] ==>
                var code := if statics.id == FROM_DB then 3 else 4;
                var (d, reply) := Read(Write(old(client.Chan()), [IntV(code), StrV(items[selection])]));
                client.HasChannel() && client.Chan() == d
                && p == (if reply.None? then Thrown else Reacted(Dispatch(statics.id, Show(reply.value), target)))
    {
      if networkAbsent {
        return LostConnection;
      }
      var id := statics.id;
      if id != FROM_DB && id != FROM_FILE {
        return Reacted(NoAction);
      }
      if items == [] {
        return Thrown;
      }
      var result;
      if id == FROM_DB {
        result := client.LearnTreeFromDb(items[selection]);
      } else {
        result := client.GetTreeFromFile(items[selection]);
      }
      if result.None? {
        return Thrown;
      }
      p := Reacted(Dispatch(id, result.value, target));
    }
  }
}
