/** The parts of the browser `document` that the core touches: its ordered
    list of event-listener registrations, and the children of `head` and
    `body` with their ids. */
module Dom {
  import opened Base

  /** One `addEventListener(type, listener, capture)` entry. */
  datatype Registration = Registration(eventType: string, listener: object, capture: bool)

  /** An element property value. */
  datatype Prop = PText(s: string) | PFlag(b: bool)

  /** An element appended to `head` or `body`: its tag, `id`, `className`
      and the other properties the core sets. */
  datatype Node = Node(tag: string, id: string, className: string, props: map<string, Prop>)

  predicate NoDuplicates<T(==)>(s: seq<T>)
  {
    forall i, j :: 0 <= i < j < |s| ==> s[i] != s[j]
  }

  /** `s` with every registration in `gone` taken out, order kept. */
  function Without(s: seq<Registration>, gone: set<Registration>): (r: seq<Registration>)
    ensures forall i :: 0 <= i < |r| ==> r[i] in s && r[i] !in gone
    ensures forall i :: 0 <= i < |s| && s[i] !in gone ==> s[i] in r
  {
    if s == [] then []
    else
      var rest := Without(s[1..], gone);
      if s[0] in gone then rest else [s[0]] + rest
  }

  /** Removal keeps a duplicate-free list duplicate-free. */
  lemma {:induction false} WithoutKeepsNoDuplicates(s: seq<Registration>, gone: set<Registration>)
    requires NoDuplicates(s)
    ensures NoDuplicates(Without(s, gone))
  {
    if s != [] {
      assert forall i, j :: 0 <= i < j < |s[1..]| ==> s[1..][i] == s[i + 1] && s[1..][j] == s[j + 1];
      WithoutKeepsNoDuplicates(s[1..], gone);
      if s[0] !in gone {
        var rest := Without(s[1..], gone);
        assert s[0] !in rest by {
          assert forall i :: 0 <= i < |s[1..]| ==> s[0] != s[1..][i];
        }
        assert Without(s, gone) == [s[0]] + rest;
      }
    }
  }

  /** Removing in two rounds is removing the union at once. */
  lemma {:induction false} WithoutTwice(s: seq<Registration>, a: set<Registration>, b: set<Registration>)
    ensures Without(Without(s, a), b) == Without(s, a + b)
  {
    if s != [] {
      WithoutTwice(s[1..], a, b);
    }
  }

  /** Removal distributes over concatenation. */
  lemma {:induction false} WithoutAppend(a: seq<Registration>, b: seq<Registration>, gone: set<Registration>)
    ensures Without(a + b, gone) == Without(a, gone) + Without(b, gone)
  {
    if a == [] {
      assert a + b == b;
    } else {
      assert (a + b)[1..] == a[1..] + b;
      WithoutAppend(a[1..], b, gone);
    }
  }

  /** Removing entries none of which is present changes nothing. */
  lemma {:induction false} WithoutDisjoint(s: seq<Registration>, gone: set<Registration>)
    requires forall i :: 0 <= i < |s| ==> s[i] !in gone
    ensures Without(s, gone) == s
  {
    if s != [] {
      assert forall i :: 0 <= i < |s[1..]| ==> s[1..][i] == s[i + 1];
      WithoutDisjoint(s[1..], gone);
      assert [s[0]] + s[1..] == s;
    }
  }

  /** Removing every present entry leaves nothing. */
  lemma {:induction false} WithoutCovered(s: seq<Registration>, gone: set<Registration>)
    requires forall i :: 0 <= i < |s| ==> s[i] in gone
    ensures Without(s, gone) == []
  {
    if s != [] {
      assert forall i :: 0 <= i < |s[1..]| ==> s[1..][i] == s[i + 1];
      WithoutCovered(s[1..], gone);
    }
  }

  lemma {:induction false} WithoutNothing(s: seq<Registration>)
    ensures Without(s, {}) == s
  {
    if s != [] {
      WithoutNothing(s[1..]);
    }
  }

  /** `getElementById(id)` over a list of nodes: the first with that id;
      the empty id names no element. */
  function FindById(nodes: seq<Node>, id: string): (r: Option<Node>)
    ensures r.Some? ==> r.value in nodes && r.value.id == id && id != ""
  {
    if id == "" || nodes == [] then None
    else if nodes[0].id == id then Some(nodes[0])
    else FindById(nodes[1..], id)
  }

  /** The number of nodes carrying the id. */
  function CountId(nodes: seq<Node>, id: string): nat
  {
    if nodes == [] then 0 else (if nodes[0].id == id then 1 else 0) + CountId(nodes[1..], id)
  }

  /** For a non-empty id, lookup fails exactly when no node has that id. */
  lemma {:induction false} FindByIdIffCount(nodes: seq<Node>, id: string)
    requires id != ""
    ensures FindById(nodes, id).None? <==> CountId(nodes, id) == 0
  {
    if nodes != [] {
      FindByIdIffCount(nodes[1..], id);
    }
  }

  lemma {:induction false} CountIdAppend(nodes: seq<Node>, n: Node, id: string)
    ensures CountId(nodes + [n], id) == CountId(nodes, id) + (if n.id == id then 1 else 0)
  {
    if nodes != [] {
      assert (nodes + [n])[1..] == nodes[1..] + [n];
      CountIdAppend(nodes[1..], n, id);
    }
  }

  class Document {
    var registrations: seq<Registration>
    var head: seq<Node>
    var body: seq<Node>

    /** The DOM never holds the same (type, listener, capture) entry twice. */
    ghost predicate Valid()
      reads this
    {
      NoDuplicates(registrations)
    }

    constructor ()
      ensures Valid() && registrations == [] && head == [] && body == []
    {
      registrations, head, body := [], [], [];
    }

    function Nodes(): seq<Node>
      reads this
    {
      head + body
    }

    function GetElementById(id: string): Option<Node>
      reads this
    {
      FindById(head + body, id)
    }

    /** `addEventListener`: appends the entry unless the identical entry is
        already registered, in which case nothing changes. */
    method AddEventListener(eventType: string, listener: object, capture: bool)
      requires Valid()
      modifies this`registrations
      ensures Valid()
      ensures var entry := Registration(eventType, listener, capture);
              registrations == if entry in old(registrations) then old(registrations) else old(registrations) + [entry]
    {
      var entry := Registration(eventType, listener, capture);
      if entry !in registrations {
        registrations := registrations + [entry];
      }
    }

    /** `removeEventListener`: takes out the identical entry, if registered. */
    method RemoveEventListener(eventType: string, listener: object, capture: bool)
      requires Valid()
      modifies this`registrations
      ensures Valid()
      ensures registrations == Without(old(registrations), {Registration(eventType, listener, capture)})
    {
      WithoutKeepsNoDuplicates(registrations, {Registration(eventType, listener, capture)});
      registrations := Without(registrations, {Registration(eventType, listener, capture)});
    }

    method AppendToBody(n: Node)
      modifies this`body
      ensures body == old(body) + [n]
    {
      body := body + [n];
    }

    method AppendToHead(n: Node)
      modifies this`head
      ensures head == old(head) + [n]
    {
      head := head + [n];
    }
  }
}
