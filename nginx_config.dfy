/** The expansion of the fixed nginx configuration template of
    internal/service/manager.go for a given service sequence. Only this one
    template is modelled, as string concatenation; the template engine is not. */
module NginxConfig {
  import opened ServiceModel
  import opened GoFmt

  /** `lines` joined by newlines, the way the template text is laid out. */
  function JoinLines(lines: seq<string>): (text: string)
    ensures lines == [] ==> text == ""
  {
    if |lines| <= 1 then (if lines == [] then "" else lines[0])
    else lines[0] + "\n" + JoinLines(lines[1..])
  }

  /** Template text before the first `{{range .Services}}`, line by line. */
  const PrefixLines: seq<string> := [
      "",
      "pid /var/run/nginx/nginx.pid;",
      "",
      "events {",
      "    worker_connections 1024;",
      "}",
      "",
      "http {",
      "    include       /etc/nginx/mime.types;",
      "    default_type  application/octet-stream;",
      "",
      "    log_format  main  '$remote_addr - $remote_user [$time_local] \"$request\" '",
      "                      '$status $body_bytes_sent \"$http_referer\" '",
      "                      '\"$http_user_agent\" \"$http_x_forwarded_for\"';",
      "",
      "    access_log  /var/log/nginx/access.log  main;",
      "    error_log   /var/log/nginx/error.log;",
      "",
      "    sendfile        on;",
      "    keepalive_timeout  65;",
      "",
      "    resolver 127.0.0.11 valid=30s;",
      "",
      "    "
    ]

  /** Template text between the first `{{end}}` and the second `{{range .Services}}`. */
  const MiddleLines: seq<string> := [
      "",
      "",
      "    server {",
      "        listen 80;",
      "        server_name localhost;",
      "",
      "        "
    ]

  /** Template text after the second `{{end}}`. */
  const SuffixLines: seq<string> := [
      "",
      "    }",
      "}",
      ""
    ]

  const Prefix: string := JoinLines(PrefixLines)
  const Middle: string := JoinLines(MiddleLines)
  const Suffix: string := JoinLines(SuffixLines)

  /** `part` occurs in `text` starting at position `k`. */
  predicate OccursAt(text: string, part: string, k: int) {
    0 <= k <= |text| - |part| && text[k..k + |part|] == part
  }

  /** `part` occurs somewhere in `text`. */
  predicate Contains(text: string, part: string) {
    exists k :: 0 <= k <= |text| && OccursAt(text, part, k)
  }

  lemma ContainsInside(before: string, part: string, after: string)
    ensures Contains(before + part + after, part)
  {
    var text := before + part + after;
    assert text[|before|..|before| + |part|] == part;
    assert OccursAt(text, part, |before|);
  }

  lemma ContainsRight(left: string, right: string, part: string)
    requires Contains(right, part)
    ensures Contains(left + right, part)
  {
    var k :| 0 <= k <= |right| && OccursAt(right, part, k);
    assert (left + right)[|left| + k..|left| + k + |part|] == right[k..k + |part|];
    assert OccursAt(left + right, part, |left| + k);
  }

  lemma ContainsLeft(left: string, right: string, part: string)
    requires Contains(left, part)
    ensures Contains(left + right, part)
  {
    var k :| 0 <= k <= |left| && OccursAt(left, part, k);
    assert (left + right)[k..k + |part|] == left[k..k + |part|];
    assert OccursAt(left + right, part, k);
  }

  lemma ContainsTrans(text: string, middle: string, part: string)
    requires Contains(text, middle) && Contains(middle, part)
    ensures Contains(text, part)
  {
    var k :| 0 <= k <= |text| && OccursAt(text, middle, k);
    var j :| 0 <= j <= |middle| && OccursAt(middle, part, j);
    forall i | 0 <= i < |part|
      ensures text[k + j..k + j + |part|][i] == part[i]
    {
      assert text[k + j + i] == middle[j + i];
    }
    assert OccursAt(text, part, k + j);
  }

  /** The header of the upstream group named after a service. */
  function UpstreamHeader(name: string): string {
    "upstream " + name + " {"
  }

  /** The single server of a service's upstream group. */
  function ServerLine(s: Service): string {
    "server " + s.host + ":" + IntToDecimal(s.port) + ";"
  }

  /** The upstream group named after a service, opened and given its one
      server on the next line: `upstream N {` then `server H:P;`. */
  function UpstreamGroup(s: Service): string {
    UpstreamHeader(s.name) + "\n        " + ServerLine(s)
  }

  /** The body of the first range for one service: `upstream N { server H:P; }`.
      After the line break and indentation it opens the group named after the
      service, whose one server is the service's host and port. */
  function UpstreamBlock(s: Service): (block: string)
    ensures OccursAt(block, UpstreamGroup(s), 5)
  {
    var block := "\n    " + UpstreamGroup(s) + "\n    }\n    ";
    assert block[5..5 + |UpstreamGroup(s)|] == UpstreamGroup(s);
    block
  }

  /** `location X` with a permanent rewrite of `^X$` to `X/`. */
  function RedirectLocation(s: Service): string {
    "location " + s.path + " {\n" +
    "            rewrite ^" + s.path + "$ " + s.path + "/ permanent;\n" +
    "        }"
  }

  /** The proxy target: the upstream group named `name`. */
  function ProxyPass(name: string): string {
    "proxy_pass http://" + name + "/;"
  }

  /** The sub-path location `location X/ {` whose first directive proxies to
      the upstream group named after the service. */
  function ProxyRoute(s: Service): string {
    "location " + s.path + "/ {\n            " + ProxyPass(s.name)
  }

  /** `location X/` proxying to the upstream group named after the service. */
  function ProxyLocation(s: Service): (location: string)
    ensures OccursAt(location, ProxyRoute(s), 0)
  {
    var location := ProxyRoute(s) + ("\n" + ProxyHeaders);
    assert location[..|ProxyRoute(s)|] == ProxyRoute(s);
    location
  }

  /** The forwarded headers every proxy location sets, and its closing brace. */
  const ProxyHeaders: string :=
    "            proxy_set_header Host $host;\n" +
    "            proxy_set_header X-Real-IP $remote_addr;\n" +
    "            proxy_set_header X-Forwarded-For $proxy_add_x_forwarded_for;\n" +
    "            proxy_set_header X-Forwarded-Proto $scheme;\n" +
    "        }"

  /** The body of the second range for one service: the location pair. It
      redirects the bare path and proxies the path's subtree to the upstream
      group named after the service. */
  function LocationBlock(s: Service): (block: string)
    ensures Contains(block, RedirectLocation(s)) && Contains(block, ProxyRoute(s))
  {
    var tail := "\n\n        " + ProxyLocation(s) + "\n        ";
    ContainsInside("\n        ", RedirectLocation(s), tail);
    ContainsInside("\n\n        ", ProxyLocation(s), "\n        ");
    ContainsRight("\n        " + RedirectLocation(s), tail, ProxyLocation(s));
    ContainsTrans("\n        " + RedirectLocation(s) + tail, ProxyLocation(s), ProxyRoute(s));
    "\n        " + RedirectLocation(s) + tail
  }

  /** `{{range .Services}} body {{end}}`: the body expanded once per service, in order. */
  function Expand(ss: seq<Service>, body: Service -> string): (text: string)
    ensures ss == [] ==> text == ""
    ensures |ss| == 1 ==> text == body(ss[0])
  {
    if ss == [] then "" else Expand(ss[..|ss| - 1], body) + body(ss[|ss| - 1])
  }

  /** The template with the expansion of the first range in place of
      `upstreams` and that of the second in place of `locations`. */
  function Frame(upstreams: string, locations: string): string {
    Prefix + upstreams + Middle + locations + Suffix
  }

  /** The configuration text produced by executing the template on a `ServiceConfig`. */
  function Render(config: ServiceConfig): (text: string)
    ensures config.services == [] ==> text == Frame("", "")
  {
    Frame(Expand(config.services, UpstreamBlock), Expand(config.services, LocationBlock))
  }

  /** Expanding a range over two consecutive parts of the sequence is expanding each in turn. */
  lemma {:induction false} ExpandAppend(a: seq<Service>, b: seq<Service>, body: Service -> string)
    ensures Expand(a + b, body) == Expand(a, body) + Expand(b, body)
  {
    if b != [] {
      var ab := a + b;
      assert ab[..|ab| - 1] == a + b[..|b| - 1];
      ExpandAppend(a, b[..|b| - 1], body);
    } else {
      assert a + b == a;
    }
  }

  /** The expansion holds exactly one copy of the body for `ss[i]`, after those
      of the services before it and before those of the services after it. */
  lemma {:induction false} ExpandAt(ss: seq<Service>, i: nat, body: Service -> string)
    requires i < |ss|
    ensures Expand(ss, body) == Expand(ss[..i], body) + body(ss[i]) + Expand(ss[i + 1..], body)
  {
    var before, after := ss[..i], ss[i + 1..];
    assert ss == (before + [ss[i]]) + after;
    ExpandAppend(before + [ss[i]], after, body);
    assert (before + [ss[i]])[..i] == before;
    assert Expand(before + [ss[i]], body) == Expand(before, body) + body(ss[i]);
  }

  /** The i-th service of the set contributes its upstream block at position i
      of the first range and its location pair at position i of the second. */
  lemma RenderBlocksInOrder(config: ServiceConfig, i: nat)
    requires i < |config.services|
    ensures var ss := config.services;
            Render(config) ==
              Frame(Expand(ss[..i], UpstreamBlock) + UpstreamBlock(ss[i]) + Expand(ss[i + 1..], UpstreamBlock),
                    Expand(ss[..i], LocationBlock) + LocationBlock(ss[i]) + Expand(ss[i + 1..], LocationBlock))
  {
    ExpandAt(config.services, i, UpstreamBlock);
    ExpandAt(config.services, i, LocationBlock);
  }

  /** What occurs in either expansion occurs in the text around them. */
  lemma ContainsEither(a: string, u: string, b: string, l: string, c: string, part: string)
    requires Contains(u, part) || Contains(l, part)
    ensures Contains(a + u + b + l + c, part)
  {
    if Contains(u, part) {
      ContainsRight(a, u, part);
      ContainsLeft(a + u, b, part);
      ContainsLeft(a + u + b, l, part);
    } else {
      ContainsRight(a + u + b, l, part);
    }
    ContainsLeft(a + u + b + l, c, part);
  }

  /** Every service of the set contributes its whole upstream block and its
      whole location pair to the rendering. */
  lemma RenderContainsBlocks(config: ServiceConfig, i: nat)
    requires i < |config.services|
    ensures var s := config.services[i];
            Contains(Render(config), UpstreamBlock(s)) && Contains(Render(config), LocationBlock(s))
  {
    var ss, s := config.services, config.services[i];
    var upstreams := Expand(ss[..i], UpstreamBlock) + UpstreamBlock(s) + Expand(ss[i + 1..], UpstreamBlock);
    var locations := Expand(ss[..i], LocationBlock) + LocationBlock(s) + Expand(ss[i + 1..], LocationBlock);
    RenderBlocksInOrder(config, i);
    ContainsInside(Expand(ss[..i], UpstreamBlock), UpstreamBlock(s), Expand(ss[i + 1..], UpstreamBlock));
    ContainsInside(Expand(ss[..i], LocationBlock), LocationBlock(s), Expand(ss[i + 1..], LocationBlock));
    ContainsEither(Prefix, upstreams, Middle, locations, Suffix, UpstreamBlock(s));
    ContainsEither(Prefix, upstreams, Middle, locations, Suffix, LocationBlock(s));
  }

  /** So the rendering declares, for every service, an upstream group named
      after it whose server is its host and port, redirects its bare path to
      the sub-path, and has a sub-path location that proxies to that group. */
  lemma RenderRoutesEveryService(config: ServiceConfig, i: nat)
    requires i < |config.services|
    ensures var s := config.services[i];
            && Contains(Render(config), UpstreamGroup(s))
            && Contains(Render(config), RedirectLocation(s))
            && Contains(Render(config), ProxyRoute(s))
  {
    RenderContainsBlocks(config, i);
    RoutesOfBlocks(Render(config), config.services[i]);
  }

  /** Any text holding a service's two blocks holds its upstream group, its
      redirect and its proxy route. */
  lemma RoutesOfBlocks(text: string, s: Service)
    requires Contains(text, UpstreamBlock(s)) && Contains(text, LocationBlock(s))
    ensures Contains(text, UpstreamGroup(s))
    ensures Contains(text, RedirectLocation(s)) && Contains(text, ProxyRoute(s))
  {
    assert OccursAt(UpstreamBlock(s), UpstreamGroup(s), 5);
    ContainsTrans(text, UpstreamBlock(s), UpstreamGroup(s));
    ContainsTrans(text, LocationBlock(s), RedirectLocation(s));
    ContainsTrans(text, LocationBlock(s), ProxyRoute(s));
  }
}
