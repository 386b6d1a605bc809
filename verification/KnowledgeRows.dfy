/**
 * The rows of the two knowledge indexes: how an article becomes a document, how the adapters write
 * and remove rows under their version guards, and which rows a query returns to which audience.
 */
module KnowledgeRows {
  import opened Wrappers

  datatype OwnerScope = PlatformOwned | OrganizationOwned | SystemOwned | LegacyUnclassified
  datatype Visibility = PrivateOnly | OrganizationWide | PlatformWide | Public
  datatype Lifecycle = Draft | Review | Published | Archived
  datatype Audience = PublicAudience | OrganizationAudience(companyId: string) | PlatformAudience

  /** Who owns an article and who may see it. */
  datatype Access = Access(scope: OwnerScope, companyId: Option<string>, visibility: Visibility, status: Lifecycle)

  /** The columns every index row repeats. */
  datatype Header = Header(articleId: string, sourceVersion: nat, generation: nat, access: Access)

  datatype Content = Content(access: Access, slug: string, title: string, summary: string, tags: seq<string>, body: string)

  datatype Article = Article(id: string, version: nat, content: Content, quarantined: bool)

  datatype IndexDocument = IndexDocument(header: Header, title: string, summary: string, tags: seq<string>, searchText: string)

  /** An embedding is fixed by the text, the model and the configured embedding version. */
  datatype TextEmbedding = TextEmbedding(text: string, model: string, version: string)

  /** SHA-256, taken to be injective. */
  datatype Digest = Sha256(of: string)

  datatype VectorRow = VectorRow(header: Header, contentHash: Digest, embedding: TextEmbedding)

  function Join(tags: seq<string>, separator: string): string {
    if tags == [] then "" else if |tags| == 1 then tags[0] else tags[0] + separator + Join(tags[1..], separator)
  }

  function DocumentOf(article: Article): IndexDocument {
    var c := article.content;
    IndexDocument(
      Header(article.id, article.version, article.version, c.access), c.title, c.summary, c.tags,
      c.title + "\n" + c.summary + "\n" + Join(c.tags, " ") + "\n" + c.body)
  }

  predicate Indexable(article: Article) {
    article.content.access.status == Published && article.content.access.visibility != PrivateOnly && !article.quarantined
  }

  predicate CanRead(access: Access, audience: Audience) {
    access.status == Published && access.visibility != PrivateOnly &&
    match audience
    case PlatformAudience => access.scope == PlatformOwned
    case PublicAudience => access.visibility == Public
    case OrganizationAudience(companyId) =>
      (access.scope == OrganizationOwned && access.companyId == Some(companyId) && access.visibility in {OrganizationWide, Public}) ||
      (access.scope == PlatformOwned && access.visibility in {PlatformWide, Public})
  }

  // ----- the guarded writes -----

  /** INSERT … ON CONFLICT DO UPDATE … WHERE the stored version is not newer. */
  function UpsertSearch(row: Option<IndexDocument>, document: IndexDocument): Option<IndexDocument> {
    if row.Some? && row.value.header.sourceVersion > document.header.sourceVersion then row else Some(document)
  }

  function RemoveSearch(row: Option<IndexDocument>, maximumVersion: nat): Option<IndexDocument> {
    if row.Some? && row.value.header.sourceVersion <= maximumVersion then None else row
  }

  function VectorRowFor(document: IndexDocument, embedding: TextEmbedding): VectorRow {
    VectorRow(document.header, Sha256(document.searchText), embedding)
  }

  function UpsertVector(row: Option<VectorRow>, document: IndexDocument, embedding: TextEmbedding): Option<VectorRow> {
    if row.Some? && row.value.header.sourceVersion > document.header.sourceVersion then row
    else Some(VectorRowFor(document, embedding))
  }

  function RemoveVector(row: Option<VectorRow>, maximumVersion: nat): Option<VectorRow> {
    if row.Some? && row.value.header.sourceVersion <= maximumVersion then None else row
  }

  function Find<V>(rows: map<string, V>, id: string): Option<V> {
    if id in rows then Some(rows[id]) else None
  }

  function Put<V>(rows: map<string, V>, id: string, row: Option<V>): map<string, V> {
    match row
    case None => rows - {id}
    case Some(v) => rows[id := v]
  }

  class KnowledgeSearchAdapter {
    var rows: map<string, IndexDocument>

    constructor ()
      ensures rows == map[]
    {
      rows := map[];
    }

    /** Every row is filed under its own article id. */
    ghost predicate Valid()
      reads this
    {
      forall id :: id in rows ==> rows[id].header.articleId == id
    }

    method Upsert(document: IndexDocument)
      requires Valid()
      modifies this
      ensures Valid()
      ensures var id := document.header.articleId;
              rows == Put(old(rows), id, UpsertSearch(Find(old(rows), id), document))
    {
      var id := document.header.articleId;
      if id !in rows || rows[id].header.sourceVersion <= document.header.sourceVersion {
        rows := rows[id := document];
      }
    }

    method Remove(articleId: string, maximumVersion: nat)
      requires Valid()
      modifies this
      ensures Valid()
      ensures rows == Put(old(rows), articleId, RemoveSearch(Find(old(rows), articleId), maximumVersion))
    {
      if articleId in rows && rows[articleId].header.sourceVersion <= maximumVersion {
        rows := rows - {articleId};
      }
    }
  }

  class KnowledgeVectorAdapter {
    var rows: map<string, VectorRow>

    constructor ()
      ensures rows == map[]
    {
      rows := map[];
    }

    ghost predicate Valid()
      reads this
    {
      forall id :: id in rows ==> rows[id].header.articleId == id
    }

    method Upsert(document: IndexDocument, embedding: TextEmbedding)
      requires Valid()
      modifies this
      ensures Valid()
      ensures var id := document.header.articleId;
              rows == Put(old(rows), id, UpsertVector(Find(old(rows), id), document, embedding))
    {
      var id := document.header.articleId;
      if id !in rows || rows[id].header.sourceVersion <= document.header.sourceVersion {
        rows := rows[id := VectorRowFor(document, embedding)];
      }
    }

    method Remove(articleId: string, maximumVersion: nat)
      requires Valid()
      modifies this
      ensures Valid()
      ensures rows == Put(old(rows), articleId, RemoveVector(Find(old(rows), articleId), maximumVersion))
    {
      if articleId in rows && rows[articleId].header.sourceVersion <= maximumVersion {
        rows := rows - {articleId};
      }
    }
  }

  // ----- the queries -----

  /** The audience condition written into the SQL text. */
  predicate AudienceClause(access: Access, audience: Audience) {
    match audience
    case PlatformAudience => access.scope == PlatformOwned
    case PublicAudience => access.visibility == Public
    case OrganizationAudience(companyId) =>
      (access.scope == OrganizationOwned && access.companyId == Some(companyId) && access.visibility in {OrganizationWide, Public}) ||
      (access.scope == PlatformOwned && access.visibility in {PlatformWide, Public})
  }

  /** The join of an index row with its article, and the conditions both queries share. */
  predicate Joins(header: Header, article: Article) {
    article.id == header.articleId && article.version == header.sourceVersion && header.generation == article.version &&
    article.content.access == header.access && article.content.access.status == Published && !article.quarantined &&
    header.access.visibility != PrivateOnly
  }

  predicate SearchReturns(row: IndexDocument, article: Article, matches: string -> bool, audience: Audience) {
    Joins(row.header, article) && AudienceClause(row.header.access, audience) && matches(row.searchText) &&
    CanRead(row.header.access, audience)
  }

  predicate VectorReturns(row: VectorRow, article: Article, near: TextEmbedding -> bool, audience: Audience) {
    Joins(row.header, article) && AudienceClause(row.header.access, audience) && near(row.embedding) &&
    CanRead(row.header.access, audience)
  }

  /** The filter applied to the fetched rows never drops one, so it cannot shorten a full page. */
  lemma FilterDropsNothing(header: Header, article: Article, audience: Audience)
    requires Joins(header, article)
    ensures AudienceClause(header.access, audience) <==> CanRead(article.content.access, audience)
  {
  }

  // ----- what can be searched for -----

  ghost predicate Contains(text: string, part: string) {
    exists before, after :: text == before + part + after
  }

  lemma ContainsAt(before: string, part: string, after: string)
    ensures Contains(before + part + after, part)
  {
  }

  lemma ContainsWider(left: string, text: string, right: string, part: string)
    requires Contains(text, part)
    ensures Contains(left + text + right, part)
  {
    var before, after :| text == before + part + after;
    assert left + text + right == (left + before) + part + (after + right);
  }

  lemma {:induction false} EachTagIsJoined(tags: seq<string>, separator: string, i: nat)
    requires i < |tags|
    ensures Contains(Join(tags, separator), tags[i])
  {
    if |tags| == 1 {
      ContainsAt("", tags[0], "");
      assert "" + tags[0] + "" == tags[0];
    } else if i == 0 {
      ContainsAt("", tags[0], separator + Join(tags[1..], separator));
      assert "" + tags[0] + (separator + Join(tags[1..], separator)) == Join(tags, separator);
    } else {
      EachTagIsJoined(tags[1..], separator, i - 1);
      ContainsWider(tags[0] + separator, Join(tags[1..], separator), "", tags[i]);
      assert tags[0] + separator + Join(tags[1..], separator) + "" == Join(tags, separator);
    }
  }

  /** The text both indexes are built from contains the title, the summary, the body and every tag of the article. */
  lemma EverythingIsSearchable(article: Article)
    ensures var c, text := article.content, DocumentOf(article).searchText;
            Contains(text, c.title) && Contains(text, c.summary) && Contains(text, c.body) &&
            forall i :: 0 <= i < |c.tags| ==> Contains(text, c.tags[i])
  {
    var c, text := article.content, DocumentOf(article).searchText;
    var tags := Join(c.tags, " ");
    ContainsAt("", c.title, "\n" + c.summary + "\n" + tags + "\n" + c.body);
    assert text == "" + c.title + ("\n" + c.summary + "\n" + tags + "\n" + c.body);
    ContainsAt(c.title + "\n", c.summary, "\n" + tags + "\n" + c.body);
    assert text == c.title + "\n" + c.summary + ("\n" + tags + "\n" + c.body);
    ContainsAt(c.title + "\n" + c.summary + "\n" + tags + "\n", c.body, "");
    assert text == c.title + "\n" + c.summary + "\n" + tags + "\n" + c.body + "";
    forall i | 0 <= i < |c.tags|
      ensures Contains(text, c.tags[i])
    {
      EachTagIsJoined(c.tags, " ", i);
      ContainsWider(c.title + "\n" + c.summary + "\n", tags, "\n" + c.body, c.tags[i]);
      assert text == c.title + "\n" + c.summary + "\n" + tags + ("\n" + c.body);
    }
  }
}
