/**
 * The response records of aionexusmods/models.py that the client reshapes,
 * and ContentPreview, the one record with behaviour: a file tree whose
 * `children_recursive` walks it in pre-order.
 */
module Models {
  import opened Wrappers

  datatype ModUser = ModUser(memberId: int, memberGroupId: int, name: string)

  datatype EndorsementRef = EndorsementRef(endorseStatus: string, timestamp: Option<string>, version: Option<string>)

  datatype Mod = Mod(
    name: Option<string>,
    summary: Option<string>,
    description: Option<string>,
    pictureUrl: Option<string>,
    uid: int,
    modId: int,
    gameId: int,
    allowRating: bool,
    domainName: string,
    categoryId: int,
    version: string,
    endorsementCount: int,
    createdTimestamp: int,
    createdTime: string,
    updatedTimestamp: int,
    updatedTime: string,
    author: string,
    uploadedBy: string,
    uploadedUsersProfileUrl: string,
    containsAdultContent: bool,
    status: string,
    available: bool,
    user: Option<ModUser>,
    endorsement: Option<EndorsementRef>)

  datatype File = File(
    id: (int, int),
    uid: int,
    fileId: int,
    name: string,
    version: string,
    categoryId: int,
    categoryName: Option<string>,
    isPrimary: bool,
    size: int,
    fileName: string,
    uploadedTimestamp: int,
    uploadedTime: string,
    modVersion: Option<string>,
    externalVirusScanUrl: Option<string>,
    description: string,
    sizeKb: int,
    changelogHtml: Option<string>,
    contentPreviewLink: string,
    md5: Option<string>)

  datatype FileUpdate = FileUpdate(
    oldFileId: int,
    newFileId: int,
    oldFileName: string,
    newFileName: string,
    uploadedTimestamp: int,
    uploadedTime: string)

  datatype FilesResult = FilesResult(files: seq<File>, fileUpdates: seq<FileUpdate>)

  datatype SearchResult = SearchResult(mod: Mod, fileDetails: File)

  datatype Status = Status(message: string, status: string)

  datatype Message = Message(message: string)

  /**
   * One entry of a content preview. `children` is JSON `null` or a list;
   * it has its own datatype rather than `Option<seq<...>>` so that a child
   * is structurally below its parent.
   */
  datatype ContentPreview = ContentPreview(
    path: Option<string>,
    name: Option<string>,
    kind: Option<string>,
    children: ChildList,
    size: Option<string>)

  datatype ChildList = Null | List(items: seq<ContentPreview>)

  /** `self.children or ()`: a missing list and an empty list both give no children. */
  function Kids(n: ContentPreview): (cs: seq<ContentPreview>)
    ensures forall c :: c in cs ==> c < n
  {
    match n.children
    case Null => []
    case List(items) => items
  }

  /**
   * `children_recursive`: every node below `n`, each child followed by its
   * own traversal, siblings in order. The root itself is never yielded.
   */
  function ChildrenRecursive(n: ContentPreview): (r: seq<ContentPreview>)
    ensures forall x :: x in r ==> x < n
    ensures forall c :: c in Kids(n) ==> c in r
    ensures r == [] <==> Kids(n) == []
    decreases n, 1
  {
    Forest(n, Kids(n))
  }

  /**
   * The traversal of a run `cs` of `parent`'s children; `parent` only
   * bounds the recursion.
   */
  function Forest(ghost parent: ContentPreview, cs: seq<ContentPreview>): (r: seq<ContentPreview>)
    requires forall c :: c in cs ==> c < parent
    ensures forall x :: x in r ==> x < parent
    ensures forall c :: c in cs ==> c in r
    ensures r == [] <==> cs == []
    decreases parent, 0, |cs|
  {
    if cs == [] then []
    else
      assert cs[0] in cs;
      assert forall c :: c in cs[1..] ==> c in cs;
      [cs[0]] + ChildrenRecursive(cs[0]) + Forest(parent, cs[1..])
  }

  /** `x` is a strict descendant of `root`: a child of it, or below one of its children. */
  ghost predicate IsDescendant(x: ContentPreview, root: ContentPreview)
    decreases root
  {
    exists c :: c in Kids(root) && (x == c || IsDescendant(x, c))
  }

  /** The number of nodes of the tree rooted at `n`, the root included. */
  function Size(n: ContentPreview): (k: nat)
    ensures k >= 1
    decreases n, 1
  {
    1 + ForestSize(n, Kids(n))
  }

  function ForestSize(ghost parent: ContentPreview, cs: seq<ContentPreview>): nat
    requires forall c :: c in cs ==> c < parent
    decreases parent, 0, |cs|
  {
    if cs == [] then 0
    else
      assert cs[0] in cs;
      assert forall c :: c in cs[1..] ==> c in cs;
      Size(cs[0]) + ForestSize(parent, cs[1..])
  }

  /** The traversal of two consecutive runs of children is the two traversals in turn. */
  lemma {:induction false} ForestAppend(parent: ContentPreview, a: seq<ContentPreview>, b: seq<ContentPreview>)
    requires forall c :: c in a ==> c < parent
    requires forall c :: c in b ==> c < parent
    ensures Forest(parent, a + b) == Forest(parent, a) + Forest(parent, b)
    decreases |a|
  {
    if a != [] {
      assert (a + b)[0] == a[0];
      assert (a + b)[1..] == a[1..] + b;
      assert forall c :: c in a[1..] ==> c in a;
      ForestAppend(parent, a[1..], b);
    } else {
      assert a + b == b;
    }
  }

  /**
   * Pre-order: the `i`-th child comes right after the traversals of the
   * children before it, and is followed by its own whole traversal and
   * only then by the later siblings.
   */
  lemma PreOrder(n: ContentPreview, i: nat)
    requires i < |Kids(n)|
    ensures ChildrenRecursive(n)
         == Forest(n, Kids(n)[..i]) + [Kids(n)[i]] + ChildrenRecursive(Kids(n)[i]) + Forest(n, Kids(n)[i + 1..])
  {
    var cs := Kids(n);
    assert cs == cs[..i] + cs[i..];
    ForestAppend(n, cs[..i], cs[i..]);
    assert cs[i..][0] == cs[i];
    assert cs[i..][1..] == cs[i + 1..];
  }

  /** The first node yielded, if any, is the first child. */
  lemma FirstYieldIsFirstChild(n: ContentPreview)
    requires Kids(n) != []
    ensures ChildrenRecursive(n)[0] == Kids(n)[0]
  {
    PreOrder(n, 0);
  }

  /** The traversal has one entry per node of the tree below the root. */
  lemma {:induction false} TraversalLength(n: ContentPreview)
    ensures |ChildrenRecursive(n)| == Size(n) - 1
    decreases n, 1
  {
    ForestLength(n, Kids(n));
  }

  lemma {:induction false} ForestLength(parent: ContentPreview, cs: seq<ContentPreview>)
    requires forall c :: c in cs ==> c < parent
    ensures |Forest(parent, cs)| == ForestSize(parent, cs)
    decreases parent, 0, |cs|
  {
    if cs != [] {
      assert cs[0] in cs;
      assert forall c :: c in cs[1..] ==> c in cs;
      TraversalLength(cs[0]);
      ForestLength(parent, cs[1..]);
    }
  }

  /** A node is yielded exactly when it is a strict descendant of the root. */
  lemma {:induction false} TraversalMembers(n: ContentPreview, x: ContentPreview)
    ensures x in ChildrenRecursive(n) <==> IsDescendant(x, n)
    decreases n, 1
  {
    ForestMembers(n, Kids(n), x);
  }

  lemma {:induction false} ForestMembers(parent: ContentPreview, cs: seq<ContentPreview>, x: ContentPreview)
    requires forall c :: c in cs ==> c < parent
    ensures x in Forest(parent, cs) <==> exists c :: c in cs && (x == c || IsDescendant(x, c))
    decreases parent, 0, |cs|
  {
    if cs != [] {
      assert cs[0] in cs;
      assert forall c :: c in cs[1..] ==> c in cs;
      TraversalMembers(cs[0], x);
      ForestMembers(parent, cs[1..], x);
      assert forall c :: c in cs <==> c == cs[0] || c in cs[1..];
    }
  }

  /** The root is not among the nodes its traversal yields. */
  lemma RootNotYielded(n: ContentPreview)
    ensures n !in ChildrenRecursive(n)
  {
  }
}
