// core/chat_manager.py: conversations saved as JSON files in one directory. The directory
// is the sequence of its files in the order the file system lists them; a file either
// parses as JSON or does not. datetime values are integer timestamps, so an ISO date
// string is an Int.
module Chats {
  import opened Wrappers
  import opened Text
  import opened Json
  import opened Base
  import opened FileNames
  import opened Ranking

  datatype ChatFile = Parsed(data: Value) | Corrupt
  datatype ChatEntry = ChatEntry(name: string, file: ChatFile)

  /** One item of get_chats_list (with the parsed record it was read from). */
  datatype ListedChat = ListedChat(name: string, style: SessionStyle, savedAt: int, fields: map<string, Value>)

  /** What get_chat_by_number returns; title is present only when it was asked for. */
  datatype PickedChat = PickedChat(name: string, style: SessionStyle, history: Value, title: Option<Value>)

  const JSON_EXT := ".json"
  const SAVE_ERROR := "Impossibile salvare la chat: "
  const EMPTY_CHAT := "La chat è vuota"
  const NO_CHATS := "Non ci sono chat salvate."
  const LIST_HEADER := "Ecco le chat salvate, dalla più recente:"
  const SEPARATOR := " ... "
  /** str() of the KeyError raised for a record without a history. */
  const MISSING_HISTORY := "'history'"

  // ---- Records ----

  function MessageToValue(m: Message): Value {
    Obj(map["role" := Str(m.role), "content" := Str(m.content)])
  }

  /** A history as the JSON list of {"role", "content"} dictionaries the application keeps. */
  function HistoryToValue(h: seq<Message>): (r: Value)
    ensures r.Arr? && |r.items| == |h|
    ensures forall i :: 0 <= i < |h| ==> r.items[i] == MessageToValue(h[i])
  {
    Arr(seq(|h|, i requires 0 <= i < |h| => MessageToValue(h[i])))
  }

  function ItemToMessage(v: Value): Option<Message> {
    if v.Obj? && "role" in v.fields && "content" in v.fields
       && v.fields["role"].Str? && v.fields["content"].Str?
    then Some(Message(v.fields["role"].s, v.fields["content"].s))
    else None
  }

  function ItemsToMessages(items: seq<Value>): (r: Option<seq<Message>>)
    ensures r.Some? ==> |r.value| == |items|
  {
    if items == [] then Some([])
    else
      match (ItemToMessage(items[0]), ItemsToMessages(items[1..]))
      case (Some(m), Some(ms)) => Some([m] + ms)
      case _ => None
  }

  /** A stored history read back as messages: a list whose items all have a string role and
      string content. */
  function HistoryFromValue(v: Value): Option<seq<Message>> {
    if v.Arr? then ItemsToMessages(v.items) else None
  }

  lemma {:induction false} ItemsRoundTrip(h: seq<Message>)
    ensures ItemsToMessages(HistoryToValue(h).items) == Some(h)
  {
    if h != [] {
      ItemsRoundTrip(h[1..]);
      var items := HistoryToValue(h).items;
      assert items[1..] == HistoryToValue(h[1..]).items;
      assert ItemToMessage(items[0]) == Some(h[0]);
      assert h == [h[0]] + h[1..];
    }
  }

  /** A history written to a chat file reads back as the same messages. */
  lemma HistoryRoundTrip(h: seq<Message>)
    ensures HistoryFromValue(HistoryToValue(h)) == Some(h)
  {
    ItemsRoundTrip(h);
  }

  /** The dictionary save_chat writes. */
  function ChatRecord(style: SessionStyle, title: string, history: seq<Message>, savedAt: int): map<string, Value> {
    map["style" := Str(StyleValue(style)), "title" := Str(title),
        "history" := HistoryToValue(history), "saved_at" := Int(savedAt)]
  }

  /** The SavedChat dataclass. Its title and description are annotated as strings, but
      from_dict stores whatever the record holds. */
  datatype SavedChat = SavedChat(style: SessionStyle, history: Value, savedAt: int, title: Value, description: Value)

  /** SavedChat.to_dict */
  function ToDict(c: SavedChat): map<string, Value> {
    map["style" := Str(StyleValue(c.style)), "history" := c.history, "saved_at" := Int(c.savedAt),
        "title" := c.title, "description" := c.description]
  }

  /** SavedChat.from_dict: None where a key is missing, the style is not a style's value or the
      date does not convert; the history, title and description are taken as they are. */
  function FromDict(d: map<string, Value>): (r: Option<SavedChat>)
    ensures r.Some? <==> "style" in d && "history" in d && "saved_at" in d && "title" in d && "description" in d
                         && d["style"].Str? && StyleFromValue(d["style"].s).Some? && d["saved_at"].Int?
    ensures r.Some? ==> r.value.history == d["history"] && r.value.title == d["title"]
                        && r.value.description == d["description"] && r.value.savedAt == d["saved_at"].i
                        && StyleValue(r.value.style) == d["style"].s
  {
    if "style" !in d || "history" !in d || "saved_at" !in d || "title" !in d || "description" !in d
    then None
    else if !d["style"].Str? || StyleFromValue(d["style"].s).None? || !d["saved_at"].Int?
    then None
    else Some(SavedChat(StyleFromValue(d["style"].s).value, d["history"], d["saved_at"].i,
                        d["title"], d["description"]))
  }

  /** to_dict and from_dict are inverse. */
  lemma SavedChatRoundTrip(c: SavedChat)
    ensures FromDict(ToDict(c)) == Some(c)
  {
    StyleValueInjective(StyleFromValue(StyleValue(c.style)).value, c.style);
  }

  /** The record save_chat writes has no description, so SavedChat.from_dict refuses it. */
  lemma SavedRecordIsNoSavedChat(style: SessionStyle, title: string, history: seq<Message>, savedAt: int)
    ensures FromDict(ChatRecord(style, title, history, savedAt)) == None
  {
  }

  // ---- The directory ----

  predicate DistinctNames(entries: seq<ChatEntry>) {
    forall i, j :: 0 <= i < j < |entries| ==> entries[i].name != entries[j].name
  }

  function NamesOf(entries: seq<ChatEntry>): set<string> {
    set e | e in entries :: e.name
  }

  /** The entry under name replaced by file, or file added under name when there is none:
      write_text on a path that may already exist. */
  function Stored(entries: seq<ChatEntry>, name: string, file: ChatFile): seq<ChatEntry> {
    if name in NamesOf(entries)
    then seq(|entries|, i requires 0 <= i < |entries| =>
               if entries[i].name == name then ChatEntry(name, file) else entries[i])
    else entries + [ChatEntry(name, file)]
  }

  /** Writing a file: afterwards the name holds the new file, every other file is as it
      was, and an existing file of that name is replaced rather than joined by a second. */
  lemma StoredSpec(entries: seq<ChatEntry>, name: string, file: ChatFile)
    requires DistinctNames(entries)
    ensures DistinctNames(Stored(entries, name, file))
    ensures ChatEntry(name, file) in Stored(entries, name, file)
    ensures forall e :: e in Stored(entries, name, file) && e.name == name ==> e.file == file
    ensures forall e :: e in entries && e.name != name ==> e in Stored(entries, name, file)
    ensures forall e :: e in Stored(entries, name, file) && e.name != name ==> e in entries
    ensures NamesOf(Stored(entries, name, file)) == NamesOf(entries) + {name}
    ensures |Stored(entries, name, file)| == if name in NamesOf(entries) then |entries| else |entries| + 1
  {
    var r := Stored(entries, name, file);
    if name in NamesOf(entries) {
      var e0 :| e0 in entries && e0.name == name;
      var k :| 0 <= k < |entries| && entries[k] == e0;
      assert r[k] == ChatEntry(name, file);
      forall e | e in entries && e.name != name ensures e in r {
        var i :| 0 <= i < |entries| && entries[i] == e;
        assert r[i] == e;
      }
      forall e | e in r ensures e.name in NamesOf(entries) {
        var i :| 0 <= i < |r| && r[i] == e;
        assert entries[i].name == e.name;
      }
    } else {
      assert r[|entries|] == ChatEntry(name, file);
    }
  }

  // ---- save_chat ----

  /** The title save_chat records: the one given unless it is missing or empty, otherwise
      the one derived from the last user message. */
  function ChosenTitle(history: seq<Message>, title: Option<string>): string {
    if title.None? || title.value == "" then ChatTitle(history) else title.value
  }

  /** The file save_chat writes: the sanitised title with ".json" appended unless present. */
  function ChatFileName(history: seq<Message>, title: Option<string>): string {
    var safe := SanitizedName(ChosenTitle(history, title), CHAT_PLACEHOLDER);
    if EndsWith(safe, JSON_EXT) then safe else safe + JSON_EXT
  }

  lemma ChatFileNameShape(history: seq<Message>, title: Option<string>)
    ensures EndsWith(ChatFileName(history, title), JSON_EXT)
    ensures HasNoInvalid(ChatFileName(history, title))
  {
    PlaceholdersClean();
    SanitizedIsClean(ChosenTitle(history, title), CHAT_PLACEHOLDER);
    var safe := SanitizedName(ChosenTitle(history, title), CHAT_PLACEHOLDER);
    if !EndsWith(safe, JSON_EXT) {
      var r := safe + JSON_EXT;
      assert r[|r| - |JSON_EXT|..] == JSON_EXT;
      forall k | 0 <= k < |r| ensures r[k] !in INVALID {
        if k >= |safe| {
          assert r[k] == JSON_EXT[k - |safe|];
        }
      }
    }
  }

  // ---- get_chats_list ----

  /** How get_chats_list reads one file: a .json file holding a dictionary with a known
      style value and a saved_at date; anything else is skipped. */
  function ReadEntry(e: ChatEntry): (r: Option<ListedChat>)
    ensures r.Some? <==> EndsWith(e.name, JSON_EXT) && e.file.Parsed? && e.file.data.Obj?
                         && "style" in e.file.data.fields && e.file.data.fields["style"].Str?
                         && StyleFromValue(e.file.data.fields["style"].s).Some?
                         && "saved_at" in e.file.data.fields && e.file.data.fields["saved_at"].Int?
    ensures r.Some? ==> r.value.name == e.name && r.value.fields == e.file.data.fields
                        && StyleValue(r.value.style) == e.file.data.fields["style"].s
                        && r.value.savedAt == e.file.data.fields["saved_at"].i
  {
    if !EndsWith(e.name, JSON_EXT) || e.file.Corrupt? then None
    else
      var d := e.file.data;
      if !d.Obj? || "style" !in d.fields || !d.fields["style"].Str? then None
      else if StyleFromValue(d.fields["style"].s).None? then None
      else if "saved_at" !in d.fields || !d.fields["saved_at"].Int? then None
      else Some(ListedChat(e.name, StyleFromValue(d.fields["style"].s).value, d.fields["saved_at"].i, d.fields))
  }

  /** The readable chats, in directory order. */
  function ReadableChats(entries: seq<ChatEntry>): (r: seq<ListedChat>)
    ensures forall c :: c in r <==> exists e :: e in entries && ReadEntry(e) == Some(c)
  {
    if entries == [] then []
    else
      var init := entries[..|entries| - 1];
      var last := entries[|entries| - 1];
      assert entries == init + [last];
      ReadableChats(init) + (match ReadEntry(last) case Some(c) => [c] case None => [])
  }

  function SavedAt(c: ListedChat): int {
    c.savedAt
  }

  /** What get_chats_list returns: the readable chats, most recently saved first. */
  function ChatsListing(entries: seq<ChatEntry>): seq<ListedChat> {
    SortDesc(ReadableChats(entries), SavedAt)
  }

  /** The listing is ordered by saved_at, newest first, and holds every readable chat and
      nothing else: unreadable files are skipped, not reported. */
  lemma ChatsListingSpec(entries: seq<ChatEntry>)
    ensures SortedDesc(ChatsListing(entries), SavedAt)
    ensures multiset(ChatsListing(entries)) == multiset(ReadableChats(entries))
    ensures |ChatsListing(entries)| == |ReadableChats(entries)|
    ensures forall c :: c in ChatsListing(entries) <==> exists e :: e in entries && ReadEntry(e) == Some(c)
  {
    SortDescSpec(ReadableChats(entries), SavedAt);
    forall c ensures c in ChatsListing(entries) <==> c in ReadableChats(entries) {
      assert c in ChatsListing(entries) <==> c in multiset(ChatsListing(entries));
      assert c in ReadableChats(entries) <==> c in multiset(ReadableChats(entries));
    }
  }

  /** A record written by save_chat is read back by get_chats_list under the same name, with
      the style and date it was saved with. */
  lemma SavedChatIsListed(style: SessionStyle, history: seq<Message>, title: Option<string>, now: int)
    ensures var name := ChatFileName(history, title);
            var record := ChatRecord(style, ChosenTitle(history, title), history, now);
            ReadEntry(ChatEntry(name, Parsed(Obj(record)))) == Some(ListedChat(name, style, now, record))
  {
    ChatFileNameShape(history, title);
    StyleValueInjective(StyleFromValue(StyleValue(style)).value, style);
  }

  /** After save_chat the new chat is in get_chats_list, with its style, its date and a
      history that decodes to the one saved. */
  lemma SaveThenList(entries: seq<ChatEntry>, style: SessionStyle, history: seq<Message>, title: Option<string>,
                     now: int)
    requires DistinctNames(entries)
    ensures var name := ChatFileName(history, title);
            var after := Stored(entries, name, Parsed(Obj(ChatRecord(style, ChosenTitle(history, title), history, now))));
            DistinctNames(after)
            && exists c :: c in ChatsListing(after) && c.name == name && c.style == style && c.savedAt == now
                           && "history" in c.fields && HistoryFromValue(c.fields["history"]) == Some(history)
  {
    var name := ChatFileName(history, title);
    var record := ChatRecord(style, ChosenTitle(history, title), history, now);
    var after := Stored(entries, name, Parsed(Obj(record)));
    StoredSpec(entries, name, Parsed(Obj(record)));
    SavedChatIsListed(style, history, title, now);
    ChatsListingSpec(after);
    HistoryRoundTrip(history);
    var c := ListedChat(name, style, now, record);
    assert ChatEntry(name, Parsed(Obj(record))) in after;
    assert ReadEntry(ChatEntry(name, Parsed(Obj(record)))) == Some(c);
    assert c in ChatsListing(after);
    assert c.fields["history"] == HistoryToValue(history);
  }

  // ---- get_chat_by_number, delete, format ----

  function CountError(n: nat): string {
    "Numero non valido. Ci sono " + IntToString(n) + " chat."
  }

  /** get_chat_by_number: the n-th listed chat (counting from 1) with its stored history and,
      when asked for, its stored title or else the file name without its extension; a
      record without a history raises KeyError. */
  function ChatByNumber(entries: seq<ChatEntry>, n: int, includeTitle: bool): (r: Result<PickedChat>)
    ensures 1 <= n <= |ReadableChats(entries)| <==> r.Success? || r.error != CountError(|ReadableChats(entries)|)
    ensures !(1 <= n <= |ReadableChats(entries)|) ==> r == Failure(CountError(|ReadableChats(entries)|))
    ensures r.Success? ==>
              exists c :: c in ChatsListing(entries) && c.name == r.value.name && c.style == r.value.style
                          && "history" in c.fields && r.value.history == c.fields["history"]
    ensures r.Success? ==> (r.value.title.Some? <==> includeTitle)
  {
    ChatsListingSpec(entries);
    var listing := ChatsListing(entries);
    if !(1 <= n <= |listing|) then Failure(CountError(|listing|))
    else
      var c := listing[n - 1];
      assert c in listing;
      if "history" !in c.fields then Failure(MISSING_HISTORY)
      else
        var title := if includeTitle then Some(GetOr(c.fields, "title", Str(BeforeLastDot(c.name)))) else None;
        Success(PickedChat(c.name, c.style, c.fields["history"], title))
  }

  /** The directory without the named file. */
  function Without(entries: seq<ChatEntry>, name: string): (r: seq<ChatEntry>)
    ensures forall e :: e in r <==> e in entries && e.name != name
    ensures DistinctNames(entries) ==> DistinctNames(r)
  {
    if entries == [] then []
    else
      var rest := Without(entries[1..], name);
      assert forall e :: e in entries[1..] ==> e in entries;
      if entries[0].name == name then rest
      else
        assert DistinctNames(entries) ==> entries[0].name !in NamesOf(rest) by {
          if DistinctNames(entries) {
            forall e | e in rest ensures e.name != entries[0].name {
              var i :| 0 <= i < |entries[1..]| && entries[1..][i] == e;
              assert entries[i + 1] == e;
            }
          }
        }
        [entries[0]] + rest
  }

  /** Every listed chat is a file of the directory. */
  lemma ListedIsStored(entries: seq<ChatEntry>, i: int)
    requires 0 <= i < |ChatsListing(entries)|
    ensures ChatsListing(entries)[i].name in NamesOf(entries)
  {
    var c := ChatsListing(entries)[i];
    ChatsListingSpec(entries);
    assert c in ChatsListing(entries);
    var e :| e in entries && ReadEntry(e) == Some(c);
    assert e.name == c.name;
  }

  /** Removing the file of a listed chat removes that one name and keeps every other file. */
  lemma WithoutListed(entries: seq<ChatEntry>, i: int)
    requires 0 <= i < |ChatsListing(entries)|
    ensures var name := ChatsListing(entries)[i].name;
            name in NamesOf(entries) && NamesOf(Without(entries, name)) == NamesOf(entries) - {name}
            && forall e :: e in entries && e.name != name ==> e in Without(entries, name)
  {
    ListedIsStored(entries, i);
    WithoutNames(entries, ChatsListing(entries)[i].name);
  }

  /** Removing a file removes exactly its name and keeps every other file. */
  lemma WithoutNames(entries: seq<ChatEntry>, name: string)
    ensures NamesOf(Without(entries, name)) == NamesOf(entries) - {name}
    ensures forall e :: e in entries && e.name != name ==> e in Without(entries, name)
  {
    var w := Without(entries, name);
    forall x | x in NamesOf(entries) - {name} ensures x in NamesOf(w) {
      var e :| e in entries && e.name == x;
      assert e in w;
    }
  }

  /** The style_names dictionary of format_chats_list. */
  const STYLE_NAMES: map<SessionStyle, string> :=
    map[Translation := "traduzione", Chat := "chat", Exploration := "esplorazione",
        CreativeWriting := "scrittura creativa", ArticleWriting := "scrittura articoli"]

  lemma StyleNamesCover(s: SessionStyle)
    ensures s in STYLE_NAMES
  {
    match s
    case Translation =>
    case Chat =>
    case Exploration =>
    case CreativeWriting =>
    case ArticleWriting =>
  }

  /** The Italian name of a style, as the chat list and the application speak it. */
  function StyleName(s: SessionStyle): (r: string)
    ensures r != []
  {
    StyleNamesCover(s);
    STYLE_NAMES[s]
  }

  /** Each style has its own spoken name. */
  lemma StyleNameInjective(s: SessionStyle, t: SessionStyle)
    ensures StyleName(s) == StyleName(t) ==> s == t
  {
  }

  /** The chats format_chats_list speaks about: all of them, or those of one style. */
  function FilterStyle(listing: seq<ListedChat>, style: Option<SessionStyle>): (r: seq<ListedChat>)
    ensures style.None? ==> r == listing
    ensures forall c :: c in r <==> c in listing && (style.None? || c.style == style.value)
  {
    if style.None? || listing == [] then listing
    else (if listing[0].style == style.value then [listing[0]] else []) + FilterStyle(listing[1..], style)
  }

  function ListLine(i: nat, c: ListedChat, fmt: int -> string): string {
    "Numero " + IntToString(i) + ": " + BeforeLastDot(c.name) + ", " + StyleName(c.style)
    + ", salvata il " + fmt(c.savedAt)
  }

  function ListLines(chats: seq<ListedChat>, fmt: int -> string): (r: seq<string>)
    ensures |r| == |chats|
    ensures forall k :: 0 <= k < |chats| ==> r[k] == ListLine(k + 1, chats[k], fmt)
  {
    seq(|chats|, k requires 0 <= k < |chats| => ListLine(k + 1, chats[k], fmt))
  }

  lemma ListLinesSnoc(chats: seq<ListedChat>, i: nat, fmt: int -> string)
    requires i < |chats|
    ensures ListLines(chats[..i + 1], fmt) == ListLines(chats[..i], fmt) + [ListLine(i + 1, chats[i], fmt)]
  {
    var a := ListLines(chats[..i + 1], fmt);
    var b := ListLines(chats[..i], fmt) + [ListLine(i + 1, chats[i], fmt)];
    forall k | 0 <= k < |a| ensures a[k] == b[k] {
      if k < i {
        assert chats[..i + 1][k] == chats[..i][k];
      }
    }
  }

  /** What format_chats_list says. */
  function ListText(entries: seq<ChatEntry>, style: Option<SessionStyle>, fmt: int -> string): string {
    var chats := FilterStyle(ChatsListing(entries), style);
    if chats == [] then NO_CHATS
    else Join([LIST_HEADER] + ListLines(chats, fmt), SEPARATOR)
  }

  /** The spoken list is the fixed sentence exactly when no chat (of the style asked for) is
      readable; otherwise line i names the i-th chat of the listing. */
  lemma ListTextShape(entries: seq<ChatEntry>, style: Option<SessionStyle>, fmt: int -> string)
    ensures ListText(entries, style, fmt) == NO_CHATS <==>
            forall c :: c in ChatsListing(entries) ==> style.Some? && c.style != style.value
  {
    var chats := FilterStyle(ChatsListing(entries), style);
    if chats != [] {
      var parts := [LIST_HEADER] + ListLines(chats, fmt);
      assert Join(parts, SEPARATOR)[..|LIST_HEADER|] == LIST_HEADER;
      assert chats[0] in chats;
    } else {
      forall c | c in ChatsListing(entries) ensures style.Some? && c.style != style.value {
        if style.None? || c.style == style.value {
          assert false;
        }
      }
    }
  }

  class ChatManager {
    var entries: seq<ChatEntry>

    predicate Valid()
      reads this
    {
      DistinctNames(entries)
    }

    constructor(existing: seq<ChatEntry>)
      requires DistinctNames(existing)
      ensures Valid() && entries == existing
    {
      entries := existing;
    }

    /** save_chat: refuse an empty chat; otherwise write the record under the sanitised
        title, replacing any file of that name. A failing write changes nothing. */
    method SaveChat(style: SessionStyle, history: seq<Message>, title: Option<string>, now: int,
                    writeError: Option<string>) returns (r: Result<string>)
      requires Valid()
      modifies this
      ensures Valid()
      ensures history == [] ==> r == Failure(SAVE_ERROR + EMPTY_CHAT) && entries == old(entries)
      ensures history != [] && writeError.Some? ==>
                r == Failure(SAVE_ERROR + writeError.value) && entries == old(entries)
      ensures history != [] && writeError.None? ==>
                r == Success(ChatFileName(history, title))
                && entries == Stored(old(entries), r.value,
                                     Parsed(Obj(ChatRecord(style, ChosenTitle(history, title), history, now))))
    {
      if history == [] {
        return Failure(SAVE_ERROR + EMPTY_CHAT);
      }
      var t := if title.None? || title.value == "" then ChatTitle(history) else title.value;
      var safe := SanitizeFilename(t, CHAT_PLACEHOLDER);
      if !EndsWith(safe, JSON_EXT) {
        safe := safe + JSON_EXT;
      }
      var record := map["style" := Str(StyleValue(style)), "title" := Str(t),
                        "history" := HistoryToValue(history), "saved_at" := Int(now)];
      if writeError.Some? {
        return Failure(SAVE_ERROR + writeError.value);
      }
      StoredSpec(entries, safe, Parsed(Obj(record)));
      entries := Stored(entries, safe, Parsed(Obj(record)));
      r := Success(safe);
    }

    /** get_chats_list: read every .json file, skip the unreadable ones, then sort. */
    method GetChatsList() returns (r: seq<ListedChat>)
      ensures r == ChatsListing(entries)
    {
      var found: seq<ListedChat> := [];
      var i := 0;
      while i < |entries|
        invariant 0 <= i <= |entries|
        invariant found == ReadableChats(entries[..i])
      {
        assert entries[..i + 1][..i] == entries[..i];
        var item := ReadEntry(entries[i]);
        if item.Some? {
          found := found + [item.value];
        }
        i := i + 1;
      }
      assert entries[..i] == entries;
      r := SortDesc(found, SavedAt);
    }

    /** format_chats_list */
    method FormatChatsList(filterStyle: Option<SessionStyle>, fmt: int -> string) returns (text: string)
      ensures text == ListText(entries, filterStyle, fmt)
    {
      var chats := GetChatsList();
      if filterStyle.Some? {
        chats := FilterStyle(chats, filterStyle);
      }
      if chats == [] {
        return NO_CHATS;
      }
      var lines := [];
      var i := 0;
      while i < |chats|
        invariant 0 <= i <= |chats|
        invariant lines == ListLines(chats[..i], fmt)
      {
        ListLinesSnoc(chats, i, fmt);
        lines := lines + [ListLine(i + 1, chats[i], fmt)];
        i := i + 1;
      }
      assert chats[..i] == chats;
      text := Join([LIST_HEADER] + lines, SEPARATOR);
    }

    /** get_chat_by_number */
    method GetChatByNumber(number: int, includeTitle: bool) returns (r: Result<PickedChat>)
      ensures r == ChatByNumber(entries, number, includeTitle)
    {
      var chats := GetChatsList();
      ChatsListingSpec(entries);
      if !(1 <= number <= |chats|) {
        return Failure(CountError(|chats|));
      }
      var c := chats[number - 1];
      if "history" !in c.fields {
        return Failure(MISSING_HISTORY);
      }
      var title: Option<Value> := None;
      if includeTitle {
        title := Some(GetOr(c.fields, "title", Str(BeforeLastDot(c.name))));
      }
      r := Success(PickedChat(c.name, c.style, c.fields["history"], title));
    }

    /** delete_chat: false when the file is absent or cannot be removed. */
    method DeleteChat(filename: string, unlinkFails: bool) returns (ok: bool)
      requires Valid()
      modifies this
      ensures Valid()
      ensures ok <==> filename in NamesOf(old(entries)) && !unlinkFails
      ensures ok ==> entries == Without(old(entries), filename)
      ensures !ok ==> entries == old(entries)
    {
      if filename !in NamesOf(entries) || unlinkFails {
        return false;
      }
      entries := Without(entries, filename);
      ok := true;
    }

    /** delete_chat_by_number: range-check, then delete the n-th listed chat. */
    method DeleteChatByNumber(number: int, unlinkFails: bool) returns (r: Result<(bool, string)>)
      requires Valid()
      modifies this
      ensures Valid()
      ensures !(1 <= number <= |ChatsListing(old(entries))|) ==>
                r == Failure(CountError(|ChatsListing(old(entries))|)) && entries == old(entries)
      ensures 1 <= number <= |ChatsListing(old(entries))| ==>
                var name := ChatsListing(old(entries))[number - 1].name;
                r == Success((!unlinkFails, name)) && entries == (if unlinkFails then old(entries) else Without(old(entries), name))
    {
      var chats := GetChatsList();
      if !(1 <= number <= |chats|) {
        return Failure(CountError(|chats|));
      }
      var filename := chats[number - 1].name;
      ChatsListingSpec(entries);
      assert chats[number - 1] in chats;
      var e :| e in entries && ReadEntry(e) == Some(chats[number - 1]);
      assert filename in NamesOf(entries);
      var success := DeleteChat(filename, unlinkFails);
      r := Success((success, filename));
    }
  }
}
