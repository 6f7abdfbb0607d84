/**
 * The session with the server (`Client`): the endpoint, the `connected` flag, the socket
 * container, and the fixed request/reply exchange of each request code.
 *
 * Every exchange runs on the socket container; the Java tasks dereference it without a check and
 * throw `NullPointerException` when it is `null`, so each request requires one.
 */
module Session {
  import opened Wrappers
  import opened Decimal
  import opened Wire

  /** The request codes. */
  const TASK_GET_TABLES_FROM_DB: Int32 := 1
  const TASK_GET_FILES_FROM_ARCHIVE: Int32 := 2
  const TASK_LEARN_TREE_FROM_DB: Int32 := 3
  const TASK_GET_TREE_FROM_FILE: Int32 := 4
  const TASK_PRINT_TREE: Int32 := 5
  const TASK_PREDICT_TREE: Int32 := 6

  /** The strings the server replies with. */
  const OK := "ok"
  const DATA_ERROR := "dataError"
  const TABLE_NOT_FOUND := "tableNotFound"
  const FILE_NOT_FOUND := "fileNotFound"
  const NO_TABLES_FOUND := "NoTablesFound"
  const NO_FILES_FOUND := "NoFilesFound"

  /**
   * How the socket task that `connect` waits for ends: it opens the socket and both streams (the
   * server will then send `replies` on it), or it catches an `IOException` and yields `null`, or
   * the wait itself throws (timeout after 5 seconds, interruption, failure).
   */
  datatype ConnectAttempt = Opened(replies: seq<Value>) | Refused | TimedOut

  /** The socket container `connect` leaves behind when it starts from `container`. */
  function AfterConnect(container: Option<Channel>, attempt: ConnectAttempt): Option<Channel>
  {
    match attempt
    case Opened(replies) => Some(Channel([], replies, false))
    case Refused => None
    case TimedOut => container
  }

  /**
   * The exchange of a listing task: write the code, then read one object and cast it to a list.
   * A write or read that fails is caught by the task and gives `null`. An object that is not a
   * list makes the cast throw inside the task, which ends the app; the model gives `null` there
   * too, and the table screen turns `null` into the same crash.
   */
  function ListingExchange(c: Channel, task: Int32): (Channel, Option<seq<string>>)
  {
    if c.closed then (c, None)
    else
      var (d, v) := Read(Write(c, [IntV(task)]));
      (d, if v.Some? && v.value.ListV? then Some(v.value.items) else None)
  }

  class Client {
    /** `null` until the first `connect`; `Some` once a socket task has produced a container. */
    var socketContainer: Option<Channel>
    /** `null` until `setIp` is first called. */
    var ip: Option<string>
    var port: Int32
    var connected: bool

    /** The private constructor: every field at its Java default. */
    constructor ()
      ensures socketContainer == None && ip == None && port == 0 && !connected
    {
      socketContainer := None;
      ip := None;
      port := 0;
      connected := false;
    }

    predicate HasChannel()
      reads this
    {
      socketContainer.Some?
    }

    function Chan(): Channel
      reads this
      requires HasChannel()
    {
      socketContainer.value
    }

    /** While `connected` holds there is an open socket to talk through. */
    predicate Valid()
      reads this
    {
      connected ==> socketContainer.Some? && !socketContainer.value.closed
    }

    method SetIp(newIp: string)
      modifies this`ip
      ensures GetIp() == Some(newIp)
    {
      ip := Some(newIp);
    }

    function GetIp(): Option<string>
      reads this
    {
      ip
    }

    method SetPort(newPort: Int32)
      modifies this`port
      ensures GetPort() == newPort
    {
      port := newPort;
    }

    function GetPort(): Int32
      reads this
    {
      port
    }

    function IsConnected(): bool
      reads this
    {
      connected
    }

    /**
     * `connect`: the container is replaced by what the socket task yields; `connected` becomes
     * true only when that is a container, false when waiting for it throws, and is left as it was
     * when the task yields `null`.
     */
    method Connect(attempt: ConnectAttempt)
      modifies this`socketContainer, this`connected
      ensures attempt.Opened? ==> socketContainer == Some(Channel([], attempt.replies, false)) && connected
      ensures attempt.Refused? ==> socketContainer == None && connected == old(connected)
      ensures attempt.TimedOut? ==> socketContainer == old(socketContainer) && !connected
      ensures socketContainer == AfterConnect(old(socketContainer), attempt)
      ensures !old(connected) ==> Valid()
    {
      match attempt
      case Opened(replies) =>
        socketContainer := Some(Channel([], replies, false));
        connected := true;
      case Refused =>
        socketContainer := None;
      case TimedOut =>
        connected := false;
    }

    /**
     * `disconnect`: nothing when not connected; otherwise the socket is closed and `connected`
     * becomes false. A second call therefore changes nothing.
     */
    method Disconnect()
      requires Valid()
      modifies this`socketContainer, this`connected
      ensures !connected && Valid()
      ensures old(connected) ==> socketContainer == Some(old(socketContainer).value.(closed := true))
      ensures !old(connected) ==> socketContainer == old(socketContainer)
    {
      if connected {
        socketContainer := Some(socketContainer.value.(closed := true));
        connected := false;
      }
    }

    /** `writeObjectToSocket` (the body of the `WriteObjectToSocket` task): sends exactly `v`. */
    method WriteObjectToSocket(v: Value)
      requires HasChannel()
      modifies this`socketContainer
      ensures HasChannel() && Chan() == Write(old(Chan()), [v])
    {
      socketContainer := Some(Write(socketContainer.value, [v]));
    }

    /**
     * `readObjectFromSocket` (the body of the `ReadObjectFromSocket` task): consumes exactly one
     * value and returns its string form; a failed read gives `null` and consumes nothing.
     */
    method ReadObjectFromSocket() returns (r: Option<string>)
      requires HasChannel()
      modifies this`socketContainer
      ensures HasChannel()
      ensures (Chan(), r) == (Read(old(Chan())).0, ShowRead(Read(old(Chan())).1))
    {
      var (d, v) := Read(socketContainer.value);
      socketContainer := Some(d);
      r := ShowRead(v);
    }

    /** The body of the `GetTables` task: sends `task`, then reads one list. */
    method GetTables(task: Int32) returns (r: Option<seq<string>>)
      requires HasChannel()
      modifies this`socketContainer
      ensures HasChannel() && (Chan(), r) == ListingExchange(old(Chan()), task)
    {
      if socketContainer.value.closed {
        return None;
      }
      WriteObjectToSocket(IntV(task));
      var (d, v) := Read(socketContainer.value);
      socketContainer := Some(d);
      r := if v.Some? && v.value.ListV? then Some(v.value.items) else None;
    }

    /** `getTablesFromDb`: sends code 1 and reads the list of tables. */
    method GetTablesFromDb() returns (r: Option<seq<string>>)
      requires HasChannel()
      modifies this`socketContainer
      ensures HasChannel() && (Chan(), r) == ListingExchange(old(Chan()), 1)
    {
      r := GetTables(TASK_GET_TABLES_FROM_DB);
    }

    /** `getFilesFromArchive`: sends code 2 and reads the list of files. */
    method GetFilesFromArchive() returns (r: Option<seq<string>>)
      requires HasChannel()
      modifies this`socketContainer
      ensures HasChannel() && (Chan(), r) == ListingExchange(old(Chan()), 2)
    {
      r := GetTables(TASK_GET_FILES_FROM_ARCHIVE);
    }

    /** `learnTreeFromDb`: sends 3 then the table name, and reads one status. */
    method LearnTreeFromDb(table: string) returns (r: Option<string>)
      requires HasChannel()
      modifies this`socketContainer
      ensures HasChannel()
      ensures var (d, v) := Read(Write(old(Chan()), [IntV(3), StrV(table)]));
              Chan() == d && r == ShowRead(v)
    {
      WriteObjectToSocket(IntV(TASK_LEARN_TREE_FROM_DB));
      WriteObjectToSocket(StrV(table));
      r := ReadObjectFromSocket();
    }

    /** `getTreeFromFile`: sends 4 then the file name, and reads one status. */
    method GetTreeFromFile(file: string) returns (r: Option<string>)
      requires HasChannel()
      modifies this`socketContainer
      ensures HasChannel()
      ensures var (d, v) := Read(Write(old(Chan()), [IntV(4), StrV(file)]));
              Chan() == d && r == ShowRead(v)
    {
      WriteObjectToSocket(IntV(TASK_GET_TREE_FROM_FILE));
      WriteObjectToSocket(StrV(file));
      r := ReadObjectFromSocket();
    }

    /** `printTree`: sends 5 and reads the tree's text. */
    method PrintTree() returns (r: Option<string>)
      requires HasChannel()
      modifies this`socketContainer
      ensures HasChannel()
      ensures var (d, v) := Read(Write(old(Chan()), [IntV(5)]));
              Chan() == d && r == ShowRead(v)
    {
      WriteObjectToSocket(IntV(TASK_PRINT_TREE));
      r := ReadObjectFromSocket();
    }

    /** `startPredictionMode`: sends 6 and reads nothing. */
    method StartPredictionMode()
      requires HasChannel()
      modifies this`socketContainer
      ensures HasChannel() && Chan() == Write(old(Chan()), [IntV(6)])
    {
      WriteObjectToSocket(IntV(TASK_PREDICT_TREE));
    }
  }

  /** The class's static state: the one instance `getInstance` hands out. */
  class Statics {
    const instance: Client

    constructor ()
      ensures fresh(instance)
      ensures instance.socketContainer == None && instance.ip == None
      ensures instance.port == 0 && !instance.connected
    {
      instance := new Client();
    }

    function GetInstance(): (c: Client)
      ensures c == instance
    {
      instance
    }
  }

  /**
   * The listing exchange on an open channel: exactly the code is sent, exactly one value is
   * consumed when the server sent one, and the result is the list it carries, if it is a list.
   */
  lemma ListingAccounting(c: Channel, task: Int32)
    requires !c.closed
    ensures var (d, r) := ListingExchange(c, task);
            d.outgoing == c.outgoing + [IntV(task)] && !d.closed
            && d.incoming == (if c.incoming == [] then [] else c.incoming[1..])
            && (r.Some? <==> c.incoming != [] && c.incoming[0].ListV?)
            && (r.Some? ==> r.value == c.incoming[0].items)
  {
  }
}
