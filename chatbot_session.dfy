/** src/chatbot/util/utils.ts: the chatbot session identifier kept in
    `localStorage`. The UUID generator and the clock are inputs. */
module ChatbotSession {
  import opened Base
  import opened Text

  const SessionKey: string := "ChatbotsessionID"

  /** The browser's `localStorage`: string keys to string values. */
  class LocalStorage {
    var items: map<string, string>

    constructor (items: map<string, string>)
      ensures this.items == items
    {
      this.items := items;
    }
  }

  /** The identifier `getChatbotSessionID` returns and the storage after it. */
  datatype SessionLookup = SessionLookup(id: string, items: map<string, string>)

  /** A fresh identifier: the UUID, a dash, the millisecond timestamp in decimal. */
  function NewSessionId(uuid: string, now: nat): string
  {
    uuid + "-" + NatToDecimal(now)
  }

  /** A stored non-empty identifier is reused and storage is untouched;
      otherwise a fresh one is stored under the session key, and no other
      key changes. */
  function SessionStep(items: map<string, string>, uuid: string, now: nat): (r: SessionLookup)
    ensures r.id != ""
    ensures SessionKey in items && items[SessionKey] != "" ==> r == SessionLookup(items[SessionKey], items)
    ensures SessionKey !in items || items[SessionKey] == "" ==> r.id == NewSessionId(uuid, now)
    ensures r.items.Keys == items.Keys + {SessionKey} && r.items[SessionKey] == r.id
    ensures forall k :: k in items && k != SessionKey ==> r.items[k] == items[k]
  {
    if SessionKey in items && items[SessionKey] != "" then SessionLookup(items[SessionKey], items)
    else
      var id := NewSessionId(uuid, now);
      assert id[|uuid|] == '-';
      SessionLookup(id, items[SessionKey := id])
  }

  /** `getChatbotSessionID()` with `uuidv4()` and `Date.now()` as inputs. */
  method GetChatbotSessionId(store: LocalStorage, uuid: string, now: nat) returns (id: string)
    modifies store`items
    ensures id == SessionStep(old(store.items), uuid, now).id
    ensures store.items == SessionStep(old(store.items), uuid, now).items
  {
    if SessionKey in store.items && store.items[SessionKey] != "" {
      return store.items[SessionKey];
    }
    id := NewSessionId(uuid, now);
    store.items := store.items[SessionKey := id];
  }

  /** `clearChatBotSession()`: removes the session key only. */
  method ClearChatBotSession(store: LocalStorage)
    modifies store`items
    ensures store.items == old(store.items) - {SessionKey}
  {
    store.items := store.items - {SessionKey};
  }

  /** Once an identifier is handed out, later calls return it unchanged and
      leave storage as it is, whatever UUID and time they would use. */
  lemma SessionIdStable(items: map<string, string>, uuid1: string, now1: nat, uuid2: string, now2: nat)
    ensures var first := SessionStep(items, uuid1, now1);
      SessionStep(first.items, uuid2, now2) == first
  {
  }

  /** A fresh identifier is the UUID, a dash, and digits that read back as
      the timestamp. */
  lemma FreshIdCarriesTimestamp(items: map<string, string>, uuid: string, now: nat)
    requires SessionKey !in items || items[SessionKey] == ""
    ensures exists digits ::
      (&& SessionStep(items, uuid, now).id == uuid + "-" + digits
       && digits != []
       && (forall k :: 0 <= k < |digits| ==> IsDigit(digits[k]))
       && DecimalValue(digits) == now)
  {
    DecimalRoundTrip(now);
    var digits := NatToDecimal(now);
    assert SessionStep(items, uuid, now).id == uuid + "-" + digits;
  }

  /** After clearing, the next call generates a new identifier. */
  lemma ClearForcesNewId(items: map<string, string>, uuid: string, now: nat)
    ensures SessionStep(items - {SessionKey}, uuid, now).id == NewSessionId(uuid, now)
  {
  }
}
