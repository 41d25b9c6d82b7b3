/** The conversation database as the assistant sees it: conversations keyed by id,
    each with a title and its messages in insertion order. A handle whose SQLite
    file failed to open answers every statement with a failure. */
module Store {
  import opened Wrappers
  import opened Types

  datatype Stored = Stored(title: string, messages: seq<Message>)

  datatype Database =
    | Missing                                 // no database object at all
    | Failed                                  // the object exists but sqlite3_open failed
    | Open(conversations: map<string, Stored>)

  /** getConversation: the title and messages of a stored conversation. */
  function Find(db: Database, id: string): (r: Option<Stored>)
    ensures r.Some? <==> db.Open? && id in db.conversations
    ensures r.Some? ==> r.value == db.conversations[id]
  {
    if db.Open? && id in db.conversations then Some(db.conversations[id]) else None
  }

  /** createConversation with the id the generator produced: the row is inserted
      unless the statement fails (no open database, or the id is taken). The id
      returned is "" on failure. */
  function Create(db: Database, title: string, id: string): (r: (Database, string))
    requires id != ""
    ensures r.1 == "" || r.1 == id
    ensures r.1 != "" <==> db.Open? && id !in db.conversations
    ensures r.1 != "" ==> r.0 == Open(db.conversations[id := Stored(title, [])])
    ensures r.1 == "" ==> r.0 == db
    ensures r.1 != "" ==> Find(r.0, id) == Some(Stored(title, []))
    ensures forall k :: k != id ==> Find(r.0, k) == Find(db, k)
  {
    if db.Open? && id !in db.conversations then (Open(db.conversations[id := Stored(title, [])]), id)
    else (db, "")
  }

  /** addMessage: the message joins the end of its conversation; the foreign key
      makes the insert fail when the conversation does not exist. */
  function Append(db: Database, id: string, m: Message): (r: Database)
    ensures Find(r, id) == if Find(db, id).Some? then Some(Find(db, id).value.(messages := Find(db, id).value.messages + [m])) else None
    ensures forall k :: k != id ==> Find(r, k) == Find(db, k)
    ensures r.Open? == db.Open? && (r.Open? ==> r.conversations.Keys == db.conversations.Keys)
  {
    if db.Open? && id in db.conversations then
      Open(db.conversations[id := db.conversations[id].(messages := db.conversations[id].messages + [m])])
    else db
  }

  /** updateConversationTitle. */
  function Retitle(db: Database, id: string, title: string): (r: Database)
    ensures Find(r, id) == if Find(db, id).Some? then Some(Find(db, id).value.(title := title)) else None
    ensures forall k :: k != id ==> Find(r, k) == Find(db, k)
    ensures r.Open? == db.Open? && (r.Open? ==> r.conversations.Keys == db.conversations.Keys)
  {
    if db.Open? && id in db.conversations then
      Open(db.conversations[id := db.conversations[id].(title := title)])
    else db
  }

  /** deleteConversation: the DELETE succeeds on an open database whether or not
      the row exists; its messages go with it (ON DELETE CASCADE). */
  function Delete(db: Database, id: string): (r: (Database, bool))
    ensures r.1 <==> db.Open?
    ensures r.1 ==> Find(r.0, id) == None && r.0 == Open(db.conversations - {id})
    ensures !r.1 ==> r.0 == db
    ensures forall k :: k != id ==> Find(r.0, k) == Find(db, k)
  {
    if db.Open? then (Open(db.conversations - {id}), true) else (db, false)
  }

  /** A created conversation holds exactly the messages appended to it since, in order. */
  lemma {:induction false} CreateThenAppend(db: Database, title: string, id: string, ms: seq<Message>)
    requires id != "" && Create(db, title, id).1 != ""
    ensures Find(AppendAll(Create(db, title, id).0, id, ms), id) == Some(Stored(title, ms))
    decreases |ms|
  {
    if |ms| > 0 {
      CreateThenAppend(db, title, id, ms[..|ms| - 1]);
      assert ms == ms[..|ms| - 1] + [ms[|ms| - 1]];
    }
  }

  /** Appending several messages one by one. */
  function AppendAll(db: Database, id: string, ms: seq<Message>): Database
    decreases |ms|
  {
    if |ms| == 0 then db else Append(AppendAll(db, id, ms[..|ms| - 1]), id, ms[|ms| - 1])
  }
}
