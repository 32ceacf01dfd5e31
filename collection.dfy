/**
 * The entities of a request collection: variables, requests with their
 * header and parameter maps, and the folder tree the navigator walks.
 */
module PCollection {

  /** One named variable, from the collection or from the environment. */
  datatype KeyValue = KeyValue(key: string, value: string)

  /**
   * A Go `map[string]string`. A Go map value is a reference to shared,
   * mutable contents, so it is an object here; `entries` is its contents.
   */
  class StringMap {
    var entries: map<string, string>

    /** Go's `make(map[string]string)`. */
    constructor ()
      ensures entries == map[]
    {
      entries := map[];
    }
  }

  /** The query, form and path parameters: a struct of three map references. */
  datatype Parameters = Parameters(get: StringMap, post: StringMap, path: StringMap)

  /** A request template from the collection, or a request made from one. */
  class Req {
    var httpMethod: string
    var url: string
    var headers: StringMap
    var body: string
    var contentType: string
    var parameters: Parameters

    constructor (httpMethod: string, url: string, headers: StringMap, body: string,
                 contentType: string, parameters: Parameters)
      ensures this.httpMethod == httpMethod && this.url == url && this.headers == headers
      ensures this.body == body && this.contentType == contentType
      ensures this.parameters == parameters
    {
      this.httpMethod := httpMethod;
      this.url := url;
      this.headers := headers;
      this.body := body;
      this.contentType := contentType;
      this.parameters := parameters;
    }

    /** The four maps of the request are four different maps. */
    predicate SeparateMaps()
      reads this
    {
      && headers != parameters.get
      && headers != parameters.post
      && headers != parameters.path
      && parameters.get != parameters.post
      && parameters.get != parameters.path
      && parameters.post != parameters.path
    }
  }

  /**
   * A node of the collection tree: a folder when its child list (Go field
   * `Node`) has entries, a request otherwise. Go distinguishes a nil child
   * list from an empty one, so `NodeList` does too.
   */
  datatype Node = Node(name: string, children: NodeList, request: Req?)

  datatype NodeList = Nil | List(nodes: seq<Node>)

  /** The entries of a child list; a nil list has none, as in Go. */
  function Elems(l: NodeList): seq<Node>
  {
    match l
    case Nil => []
    case List(nodes) => nodes
  }
}
