/** The UI content trees the demo script sends for the host to render: a tag, the
    properties that matter here (`src`, sizes, link targets, click callback ids) and
    either text or child nodes. Styles and class names are not modelled. */
module Content {

  datatype Node = Node(tag: string, props: map<string, string>, children: Children)

  datatype Children = NoChildren | Text(text: string) | Nodes(nodes: seq<Node>)

  const BatmanIcon := "https://img.icons8.com/material-sharp/1x/batman-emoji.png"
  const ModalHeaderIcon := "/bbcswebdav/institution/icons/ueftest_top.png"
  const ModalCloseCallback := "modal-popup-close"
  const CourseDetailsCallback := "course-details-test"
  const NotificationText := "UEF Test Notification"

  /** The values of property `key` on the nodes tagged `tag`, in document order. */
  function Find(n: Node, tag: string, key: string): seq<string>
    decreases n
  {
    (if n.tag == tag && key in n.props then [n.props[key]] else [])
    + (match n.children
       case Nodes(ns) => FindAll(ns, tag, key)
       case _ => [])
  }

  function FindAll(ns: seq<Node>, tag: string, key: string): seq<string>
    decreases ns
  {
    if |ns| == 0 then [] else Find(ns[0], tag, key) + FindAll(ns[1..], tag, key)
  }

  /** The text leaves of a tree, in document order. */
  function Texts(n: Node): seq<string>
    decreases n
  {
    match n.children
    case NoChildren => []
    case Text(t) => [t]
    case Nodes(ns) => TextsAll(ns)
  }

  function TextsAll(ns: seq<Node>): seq<string>
    decreases ns
  {
    if |ns| == 0 then [] else Texts(ns[0]) + TextsAll(ns[1..])
  }

  /** An element with child nodes. */
  function Element(tag: string, props: map<string, string>, kids: seq<Node>): Node {
    Node(tag, props, Nodes(kids))
  }

  /** An element without children. */
  function Leaf(tag: string, props: map<string, string>): Node {
    Node(tag, props, NoChildren)
  }

  /** An element holding text. */
  function Label(tag: string, props: map<string, string>, text: string): Node {
    Node(tag, props, Text(text))
  }

  /** The matches of an element with one child: its own, then the child's. */
  lemma FindOne(tag: string, props: map<string, string>, a: Node, t: string, key: string)
    ensures Find(Element(tag, props, [a]), t, key) ==
      (if tag == t && key in props then [props[key]] else []) + Find(a, t, key)
  {
    assert [a][1..] == [];
    assert FindAll([a], t, key) == Find(a, t, key) + FindAll([], t, key);
  }

  /** The matches of an element with two children, in order. */
  lemma FindTwo(tag: string, props: map<string, string>, a: Node, b: Node, t: string, key: string)
    ensures Find(Element(tag, props, [a, b]), t, key) ==
      (if tag == t && key in props then [props[key]] else []) + Find(a, t, key) + Find(b, t, key)
  {
    assert [a, b][1..] == [b];
    assert [b][1..] == [];
    assert FindAll([b], t, key) == Find(b, t, key) + FindAll([], t, key);
    assert FindAll([a, b], t, key) == Find(a, t, key) + FindAll([b], t, key);
  }

  /** The matches of an element with three children, in order. */
  lemma FindThree(tag: string, props: map<string, string>, a: Node, b: Node, c: Node, t: string, key: string)
    ensures Find(Element(tag, props, [a, b, c]), t, key) ==
      (if tag == t && key in props then [props[key]] else []) + Find(a, t, key) + Find(b, t, key) + Find(c, t, key)
  {
    assert [a, b, c][1..] == [b, c];
    assert [b, c][1..] == [c];
    assert [c][1..] == [];
    assert FindAll([c], t, key) == Find(c, t, key) + FindAll([], t, key);
    assert FindAll([b, c], t, key) == Find(b, t, key) + FindAll([c], t, key);
    assert FindAll([a, b, c], t, key) == Find(a, t, key) + FindAll([b, c], t, key);
  }

  /** The texts of an element with one child are the child's. */
  lemma TextsOne(tag: string, props: map<string, string>, a: Node)
    ensures Texts(Element(tag, props, [a])) == Texts(a)
  {
    assert [a][1..] == [];
    assert TextsAll([a]) == Texts(a) + TextsAll([]);
  }

  /** The texts of an element with two children, in order. */
  lemma TextsTwo(tag: string, props: map<string, string>, a: Node, b: Node)
    ensures Texts(Element(tag, props, [a, b])) == Texts(a) + Texts(b)
  {
    assert [b][1..] == [] && [a, b][1..] == [b];
    assert TextsAll([b]) == Texts(b) + TextsAll([]);
    assert TextsAll([a, b]) == Texts(a) + TextsAll([b]);
  }

  lemma SeqAssoc<T>(x: seq<T>, y: seq<T>, z: seq<T>)
    ensures x + (y + z) == x + y + z
  {
  }

  /** The texts of an element with three children, in order. */
  lemma TextsThree(tag: string, props: map<string, string>, a: Node, b: Node, c: Node)
    ensures Texts(Element(tag, props, [a, b, c])) == Texts(a) + Texts(b) + Texts(c)
  {
    var bc := Element(tag, props, [b, c]);
    TextsTwo(tag, props, b, c);
    assert [a, b, c][0] == a && [a, b, c][1..] == bc.children.nodes;
    assert Texts(Element(tag, props, [a, b, c])) == Texts(a) + Texts(bc);
    SeqAssoc(Texts(a), Texts(b), Texts(c));
  }

  /** `showBaseNav(linkName)`: a link to the `uefTest` route with an icon and the
      link name. */
  function BaseNavButton(linkName: string): (r: Node)
    ensures r.tag == "ButtonLink" && Find(r, "ButtonLink", "to") == ["uefTest"]
    ensures Texts(r) == [linkName]
    ensures Find(r, "SvgIcon", "url") == [BatmanIcon]
  {
    var icon := Leaf("SvgIcon", map["url" := BatmanIcon]);
    var name := Label("span", map[], linkName);
    FindTwo("ButtonLink", map["to" := "uefTest"], icon, name, "SvgIcon", "url");
    FindTwo("ButtonLink", map["to" := "uefTest"], icon, name, "ButtonLink", "to");
    TextsTwo("ButtonLink", map["to" := "uefTest"], icon, name);
    Element("ButtonLink", map["to" := "uefTest"], [icon, name])
  }

  /** The course-details card of `showCourseDetails`: one button, wired to the
      `course-details-test` callback, holding the icon, the title and the link text. */
  function CourseDetailsCard(titleName: string, linkName: string): (r: Node)
    ensures Find(r, "button", "onClick") == [CourseDetailsCallback]
    ensures Find(r, "img", "src") == [BatmanIcon]
    ensures Texts(r) == [titleName, linkName]
  {
    var button := CourseDetailsButton(titleName, linkName);
    FindOne("div", map[], button, "button", "onClick");
    FindOne("div", map[], button, "img", "src");
    TextsOne("div", map[], button);
    Element("div", map[], [button])
  }

  /** The clickable part of the course-details card. */
  function CourseDetailsButton(titleName: string, linkName: string): (r: Node)
    ensures Find(r, "button", "onClick") == [CourseDetailsCallback]
    ensures Find(r, "img", "src") == [BatmanIcon]
    ensures Texts(r) == [titleName, linkName]
  {
    var img := Leaf("img", map["src" := BatmanIcon, "alt" := "Batman logo"]);
    var image := Element("div", map[], [img]);
    var details := CourseDetailsText(titleName, linkName);
    var props := map["onClick" := CourseDetailsCallback];
    FindOne("div", map[], img, "button", "onClick");
    FindOne("div", map[], img, "img", "src");
    FindTwo("button", props, image, details, "button", "onClick");
    FindTwo("button", props, image, details, "img", "src");
    TextsOne("div", map[], img);
    TextsTwo("button", props, image, details);
    Element("button", props, [image, details])
  }

  /** The title and link text of the course-details card. */
  function CourseDetailsText(titleName: string, linkName: string): (r: Node)
    ensures Find(r, "button", "onClick") == [] && Find(r, "img", "src") == []
    ensures Texts(r) == [titleName, linkName]
  {
    var title := Label("div", map[], titleName);
    var text := Label("div", map[], linkName);
    var link := Element("div", map[], [text]);
    FindOne("div", map[], text, "button", "onClick");
    FindOne("div", map[], text, "img", "src");
    FindTwo("div", map[], title, link, "button", "onClick");
    FindTwo("div", map[], title, link, "img", "src");
    TextsOne("div", map[], text);
    TextsTwo("div", map[], title, link);
    Element("div", map[], [title, link])
  }

  /** The small notification of `showNotification`. */
  function NotificationCard(): (r: Node)
    ensures r.tag == "Notification" && Find(r, "Notification", "size") == ["small"]
    ensures Texts(r) == [NotificationText]
  {
    var span := Label("span", map[], NotificationText);
    var body := Element("div", map[], [span]);
    FindOne("div", map[], span, "Notification", "size");
    FindOne("Notification", map["size" := "small"], body, "Notification", "size");
    TextsOne("div", map[], span);
    TextsOne("Notification", map["size" := "small"], body);
    Element("Notification", map["size" := "small"], [body])
  }

  /** An iframe showing `src`, wrapped in one element: a `div` for the banner of
      `showBanner` and the modal body, a `span` for the contents of
      `renderPanelContents` and `renderBaseNavContents`. */
  function FrameIn(tag: string, src: string): (r: Node)
    ensures r.tag == tag
    ensures tag != "iframe" ==> Find(r, "iframe", "src") == [src]
    ensures Find(r, "img", "src") == [] && Find(r, "button", "onClick") == [] && Texts(r) == []
  {
    var frame := Leaf("iframe", map["src" := src]);
    FindOne(tag, map[], frame, "iframe", "src");
    FindOne(tag, map[], frame, "img", "src");
    FindOne(tag, map[], frame, "button", "onClick");
    TextsOne(tag, map[], frame);
    Element(tag, map[], [frame])
  }

  /** The modal of `renderModal`: header icon, an iframe showing `src` in the body,
      and a footer button labelled `Close` wired to the `modal-popup-close`
      callback. */
  function ModalDialog(size: string, src: string): (r: Node)
    ensures r.tag == "Modal" && Find(r, "Modal", "width") == [size]
    ensures Find(r, "iframe", "src") == [src]
    ensures Find(r, "img", "src") == [ModalHeaderIcon]
    ensures Find(r, "button", "onClick") == [ModalCloseCallback]
    ensures Texts(r) == ["Close"]
  {
    var header := ModalHeader();
    var body := ModalBody(src);
    var footer := ModalFooter();
    var props := map["width" := size];
    FindThree("Modal", props, header, body, footer, "Modal", "width");
    FindThree("Modal", props, header, body, footer, "iframe", "src");
    FindThree("Modal", props, header, body, footer, "img", "src");
    FindThree("Modal", props, header, body, footer, "button", "onClick");
    TextsThree("Modal", props, header, body, footer);
    Element("Modal", props, [header, body, footer])
  }

  /** The modal header: the header icon. */
  function ModalHeader(): (r: Node)
    ensures Find(r, "Modal", "width") == [] && Find(r, "iframe", "src") == []
    ensures Find(r, "img", "src") == [ModalHeaderIcon] && Find(r, "button", "onClick") == []
    ensures Texts(r) == []
  {
    var icon := Leaf("img", map["src" := ModalHeaderIcon]);
    FindOne("ModalHeader", map[], icon, "Modal", "width");
    FindOne("ModalHeader", map[], icon, "iframe", "src");
    FindOne("ModalHeader", map[], icon, "img", "src");
    FindOne("ModalHeader", map[], icon, "button", "onClick");
    TextsOne("ModalHeader", map[], icon);
    Element("ModalHeader", map[], [icon])
  }

  /** The modal body: an iframe showing `src` inside a `div`. */
  function ModalBody(src: string): (r: Node)
    ensures Find(r, "Modal", "width") == [] && Find(r, "iframe", "src") == [src]
    ensures Find(r, "img", "src") == [] && Find(r, "button", "onClick") == []
    ensures Texts(r) == []
  {
    var holder := FrameIn("div", src);
    FindOne("div", map[], Leaf("iframe", map["src" := src]), "Modal", "width");
    FindOne("ModalBody", map[], holder, "Modal", "width");
    FindOne("ModalBody", map[], holder, "iframe", "src");
    FindOne("ModalBody", map[], holder, "img", "src");
    FindOne("ModalBody", map[], holder, "button", "onClick");
    TextsOne("ModalBody", map[], holder);
    Element("ModalBody", map[], [holder])
  }

  /** The modal footer: the `Close` button. */
  function ModalFooter(): (r: Node)
    ensures Find(r, "Modal", "width") == [] && Find(r, "iframe", "src") == []
    ensures Find(r, "img", "src") == [] && Find(r, "button", "onClick") == [ModalCloseCallback]
    ensures Texts(r) == ["Close"]
  {
    var close := Label("button", map["onClick" := ModalCloseCallback], "Close");
    FindOne("ModalFooter", map[], close, "Modal", "width");
    FindOne("ModalFooter", map[], close, "iframe", "src");
    FindOne("ModalFooter", map[], close, "img", "src");
    FindOne("ModalFooter", map[], close, "button", "onClick");
    TextsOne("ModalFooter", map[], close);
    Element("ModalFooter", map[], [close])
  }
}
