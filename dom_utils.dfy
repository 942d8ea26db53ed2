/** src/helpers/utils.ts: insert-if-absent of a script or stylesheet by id
    (used by the chatbot), and the two element factories. */
module DomUtils {
  import opened Base
  import opened Text
  import opened Dom

  /** `nonce || ''`. */
  function NonceOrEmpty(nonce: Option<string>): (r: string)
    ensures Truthy(nonce) ==> r == nonce.value
    ensures !Truthy(nonce) ==> r == ""
  {
    nonce.GetOr("")
  }

  /** The script element `injectScript` builds. */
  function ScriptNode(src: string, id: string, nonce: Option<string>): Node
  {
    Node("script", id, "", map[
      "src" := PText(src),
      "async" := PFlag(true),
      "nonce" := PText(NonceOrEmpty(nonce)),
      "type" := PText("text/javascript")])
  }

  /** The stylesheet link `injectLink` builds. */
  function LinkNode(href: string, id: string, nonce: Option<string>): Node
  {
    Node("link", id, "", map[
      "href" := PText(href),
      "rel" := PText("stylesheet"),
      "type" := PText("text/css"),
      "nonce" := PText(NonceOrEmpty(nonce))])
  }

  /** `injectScript(src, id, nonce?)`: when no element has the id, appends
      one script to `body`; otherwise leaves the document alone. Either way
      an id that was unique (or absent) is carried by exactly one element. */
  method InjectScript(doc: Document, src: string, id: string, nonce: Option<string>)
    modifies doc`body
    ensures old(doc.GetElementById(id)).Some? ==> doc.body == old(doc.body)
    ensures old(doc.GetElementById(id)).None? ==> doc.body == old(doc.body) + [ScriptNode(src, id, nonce)]
    ensures id != "" && old(CountId(doc.Nodes(), id)) <= 1 ==> CountId(doc.Nodes(), id) == 1
  {
    if id != "" {
      FindByIdIffCount(doc.Nodes(), id);
    }
    if doc.GetElementById(id).None? {
      doc.AppendToBody(ScriptNode(src, id, nonce));
      assert doc.Nodes() == old(doc.Nodes()) + [ScriptNode(src, id, nonce)];
      CountIdAppend(old(doc.Nodes()), ScriptNode(src, id, nonce), id);
    }
  }

  /** `injectLink(href, id, nonce?)`: the same insert-if-absent by id, into `head`. */
  method InjectLink(doc: Document, href: string, id: string, nonce: Option<string>)
    modifies doc`head
    ensures old(doc.GetElementById(id)).Some? ==> doc.head == old(doc.head)
    ensures old(doc.GetElementById(id)).None? ==> doc.head == old(doc.head) + [LinkNode(href, id, nonce)]
    ensures id != "" && old(CountId(doc.Nodes(), id)) <= 1 ==> CountId(doc.Nodes(), id) == 1
  {
    if id != "" {
      FindByIdIffCount(doc.Nodes(), id);
    }
    if doc.GetElementById(id).None? {
      doc.AppendToHead(LinkNode(href, id, nonce));
      CountIdMovesWithin(old(doc.head), doc.body, LinkNode(href, id, nonce), id);
    }
  }

  /** Adding a node at the end of `head` adds one to the count of its id in
      the whole document. */
  lemma {:induction false} CountIdMovesWithin(head: seq<Node>, body: seq<Node>, n: Node, id: string)
    ensures CountId(head + [n] + body, id) == CountId(head + body, id) + (if n.id == id then 1 else 0)
  {
    if head == [] {
      assert head + [n] + body == [n] + body && head + body == body;
      assert ([n] + body)[1..] == body;
    } else {
      assert (head + [n] + body)[1..] == head[1..] + [n] + body;
      assert (head + body)[1..] == head[1..] + body;
      CountIdMovesWithin(head[1..], body, n, id);
    }
  }

  /** The host's element-name check of `document.createElement`. */
  type TagNameCheck = string -> bool

  const InvalidTagError: string := "InvalidCharacterError"

  /** `createElementWithClass(tag, className?, value?)`: `createElement`
      throws for a tag that is not a valid element name, appending nothing;
      otherwise the class name is set only when truthy, the value whenever
      it is defined (even empty), and the element goes to the end of `body`. */
  method CreateElementWithClass(doc: Document, tag: string, className: Option<string>, value: Option<string>,
                                validTag: TagNameCheck)
    returns (r: Result<Node, string>)
    modifies doc`body
    ensures !validTag(tag) ==> r == Err(InvalidTagError) && doc.body == old(doc.body)
    ensures validTag(tag) ==> r.Ok? && doc.body == old(doc.body) + [r.value]
    ensures r.Ok? ==> r.value.tag == tag && r.value.id == ""
    ensures r.Ok? ==> r.value.className == if Truthy(className) then className.value else ""
    ensures r.Ok? ==> ("value" in r.value.props <==> value.Some?)
                      && (value.Some? ==> r.value.props["value"] == PText(value.value))
    ensures r.Ok? ==> r.value.props.Keys <= {"value"}
  {
    if !validTag(tag) {
      return Err(InvalidTagError);
    }
    var el := Node(tag, "", "", map[]);
    if Truthy(className) {
      el := el.(className := className.value);
    }
    if value.Some? {
      el := el.(props := el.props["value" := PText(value.value)]);
    }
    doc.AppendToBody(el);
    r := Ok(el);
  }

  /** ASCII whitespace, which `classList.add` refuses inside a token. */
  predicate IsAsciiWhitespace(c: char)
  {
    c == '\t' || c == '\n' || c == '\U{C}' || c == '\r' || c == ' '
  }

  const EmptyTokenError: string := "SyntaxError"
  const WhitespaceTokenError: string := "InvalidCharacterError"

  /** `createElementForSelector(selector)`: always a `button`, appended to
      `body`. A `.` prefix adds the rest as a class (and, as
      `classList.add` does, throws before appending when that rest is empty
      or holds whitespace); a `#` prefix makes the rest the id; anything
      else gives a plain button. */
  method CreateElementForSelector(doc: Document, selector: string) returns (r: Result<Node, string>)
    modifies doc`body
    ensures r.Ok? ==> r.value.tag == "button" && r.value.props == map[] && doc.body == old(doc.body) + [r.value]
    ensures r.Err? ==> doc.body == old(doc.body)
    ensures StartsWith(selector, ".") ==>
      var token := selector[1..];
      if token == "" then r == Err(EmptyTokenError)
      else if exists k :: 0 <= k < |token| && IsAsciiWhitespace(token[k]) then r == Err(WhitespaceTokenError)
      else r.Ok? && r.value.className == token && r.value.id == ""
    ensures !StartsWith(selector, ".") && StartsWith(selector, "#") ==>
      r.Ok? && r.value.id == selector[1..] && r.value.className == ""
    ensures !StartsWith(selector, ".") && !StartsWith(selector, "#") ==>
      r.Ok? && r.value.id == "" && r.value.className == ""
  {
    if StartsWith(selector, ".") {
      var token := selector[1..];
      if token == "" {
        return Err(EmptyTokenError);
      }
      if exists k :: 0 <= k < |token| && IsAsciiWhitespace(token[k]) {
        return Err(WhitespaceTokenError);
      }
      var el := Node("button", "", token, map[]);
      doc.AppendToBody(el);
      r := Ok(el);
    } else if StartsWith(selector, "#") {
      var el := Node("button", selector[1..], "", map[]);
      doc.AppendToBody(el);
      r := Ok(el);
    } else {
      var el := Node("button", "", "", map[]);
      doc.AppendToBody(el);
      r := Ok(el);
    }
  }
}
