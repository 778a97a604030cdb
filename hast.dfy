/** The part of the HTML syntax tree (hast) that the Shiki transformers of the site look at. */
module Hast {

  /** A property value: `true`, a number, a string, or a list of strings (a `className` array). */
  datatype PropValue = PTrue | PNumber(n: int) | PString(s: string) | PList(items: seq<string>)

  datatype Node =
    | Element(tagName: string, properties: map<string, PropValue>, children: seq<Node>)
    | Text(value: string)
    | Comment(value: string)

  /** `node.properties[name] = value`, leaving tag and children as they are. */
  function SetProperty(node: Node, name: string, value: PropValue): (r: Node)
    requires node.Element?
    ensures r.Element? && r.tagName == node.tagName && r.children == node.children
    ensures r.properties == node.properties[name := value]
  {
    node.(properties := node.properties[name := value])
  }
}
