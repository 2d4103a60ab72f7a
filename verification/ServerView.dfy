/** What a configuration file means: the servers it declares, read off the parsed directives. */
module ServerView {
  import opened Text
  import opened NginxSyntax

  datatype Server = Server(
    listens: seq<seq<string>>, names: seq<seq<string>>, roots: seq<seq<string>>,
    certificates: seq<seq<string>>, keys: seq<seq<string>>, redirects: seq<seq<string>>,
    tryFiles: seq<seq<string>>, fastcgiPass: seq<seq<string>>)

  function ArgsOf(item: Item, name: string): seq<seq<string>> {
    if item.Directive? && item.words != [] && item.words[0] == name then [item.words[1..]] else []
  }

  /** Argument lists of every directive `name` in a block, in order. */
  function Args(items: seq<Item>, name: string): seq<seq<string>> {
    if items == [] then [] else ArgsOf(items[0], name) + Args(items[1..], name)
  }

  function BodyOf(item: Item, heading: seq<string>): seq<Item> {
    if item.Block? && item.heading == heading then item.body else []
  }

  /** Contents of every block with the given heading, in order. */
  function Bodies(items: seq<Item>, heading: seq<string>): seq<Item> {
    if items == [] then [] else BodyOf(items[0], heading) + Bodies(items[1..], heading)
  }

  function ReadServer(body: seq<Item>): Server {
    Server(Args(body, "listen"), Args(body, "server_name"), Args(body, "root"),
           Args(body, "ssl_certificate"), Args(body, "ssl_certificate_key"), Args(body, "return"),
           Args(Bodies(body, ["location", "/"]), "try_files"),
           Args(Bodies(body, ["location", "~", "\\.php$"]), "fastcgi_pass"))
  }

  /** A site file holds server blocks and nothing else. */
  function ReadServers(items: seq<Item>): Option<seq<Server>> {
    if items == [] then Some([])
    else if !items[0].Block? || items[0].heading != ["server"] then None
    else match ReadServers(items[1..])
      case None => None
      case Some(more) => Some([ReadServer(items[0].body)] + more)
  }

  function ReadSite(text: string): Option<seq<Server>> {
    match Parse(text)
    case None => None
    case Some(items) => ReadServers(items)
  }
}
