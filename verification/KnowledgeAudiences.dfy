/** Who finds which article, in terms of the article's columns alone. */
module KnowledgeAudiences {
  import opened Wrappers
  import opened KnowledgeRows
  import opened KnowledgeIndex

  /** One of the two queries returns the article to the audience. */
  predicate Returned(c: Cell, matches: string -> bool, near: TextEmbedding -> bool, audience: Audience) {
    c.article.Some? &&
    ((c.search.Some? && SearchReturns(c.search.value, c.article.value, matches, audience)) ||
     (c.vector.Some? && VectorReturns(c.vector.value, c.article.value, near, audience)))
  }

  /** The event that files the article's current version is done. */
  predicate UpToDate(c: Cell) {
    c.article.Some? &&
    var key := EventKey(c.article.value.version, false);
    key in c.events && c.events[key].status == Completed
  }

  /** In every run: no query returns an organization's article to another organization. */
  lemma OrganizationsAreIsolated(id: string, steps: seq<Step>, matches: string -> bool, near: TextEmbedding -> bool,
        companyId: string)
    ensures var c := Execute(id, EmptyCell, steps);
            Returned(c, matches, near, OrganizationAudience(companyId)) ==>
              var access := c.article.value.content.access;
              access.visibility != PrivateOnly &&
              (access.scope == OrganizationOwned ==> access.companyId == Some(companyId) && access.visibility != PlatformWide) &&
              (access.scope != OrganizationOwned ==> access.scope == PlatformOwned && access.visibility != OrganizationWide)
  {
    QueriesReturnCurrentDocuments(id, steps, matches, near, OrganizationAudience(companyId));
  }

  /** In every run: the public is returned public articles only, and the platform its own only. */
  lemma PublicAndPlatformAreIsolated(id: string, steps: seq<Step>, matches: string -> bool, near: TextEmbedding -> bool)
    ensures var c := Execute(id, EmptyCell, steps);
            (Returned(c, matches, near, PublicAudience) ==> c.article.value.content.access.visibility == Public) &&
            (Returned(c, matches, near, PlatformAudience) ==>
               c.article.value.content.access.scope == PlatformOwned && c.article.value.content.access.visibility != PrivateOnly)
  {
    QueriesReturnCurrentDocuments(id, steps, matches, near, PublicAudience);
    QueriesReturnCurrentDocuments(id, steps, matches, near, PlatformAudience);
  }

  /** Drafts, private articles, archived and quarantined ones are returned to nobody. */
  lemma UnpublishedIsHidden(id: string, steps: seq<Step>, matches: string -> bool, near: TextEmbedding -> bool,
        audience: Audience)
    ensures var c := Execute(id, EmptyCell, steps);
            Returned(c, matches, near, audience) ==>
              c.article.value.content.access.status == Published && c.article.value.content.access.visibility != PrivateOnly &&
              !c.article.value.quarantined
  {
    QueriesReturnCurrentDocuments(id, steps, matches, near, audience);
  }

  /** Both queries return the article exactly when its text matches. */
  predicate Found(c: Cell, matches: string -> bool, near: TextEmbedding -> bool, audience: Audience)
    requires c.article.Some?
  {
    c.search.Some? && c.vector.Some? &&
    (SearchReturns(c.search.value, c.article.value, matches, audience) <==> matches(DocumentOf(c.article.value).searchText)) &&
    (VectorReturns(c.vector.value, c.article.value, near, audience) <==> near(c.vector.value.embedding))
  }

  /** A published article, whose event is done, that everybody entitled to it should find. */
  predicate Settled(c: Cell) {
    UpToDate(c) && c.article.value.content.access.status == Published && !c.article.value.quarantined
  }

  /** In every run: an organization's members find its own organization-wide and public articles. */
  lemma MembersFindTheirOwn(id: string, steps: seq<Step>, matches: string -> bool, near: TextEmbedding -> bool, companyId: string)
    ensures var c := Execute(id, EmptyCell, steps);
            Settled(c) ==>
              var access := c.article.value.content.access;
              access.scope == OrganizationOwned && access.companyId == Some(companyId) &&
                access.visibility in {OrganizationWide, Public} ==>
                Found(c, matches, near, OrganizationAudience(companyId))
  {
    CompletedMeansFound(id, steps, matches, near, OrganizationAudience(companyId));
  }

  /** In every run: everybody finds public articles of the platform, organizations and the platform its platform-wide ones. */
  lemma PlatformArticlesAreFound(id: string, steps: seq<Step>, matches: string -> bool, near: TextEmbedding -> bool,
        audience: Audience)
    ensures var c := Execute(id, EmptyCell, steps);
            Settled(c) ==>
              var access := c.article.value.content.access;
              (access.visibility == Public && (access.scope == PlatformOwned || audience.PublicAudience?)) ||
              (access.visibility == PlatformWide && access.scope == PlatformOwned && !audience.PublicAudience?) ==>
                Found(c, matches, near, audience)
  {
    CompletedMeansFound(id, steps, matches, near, audience);
  }
}
