/**
 * The document search query: a mutable object with fluent setters and a validator whose
 * one rule of its own is that the tag criteria are required.
 */
module SearchQueries {
  import opened Wrappers
  import opened ApiTypes
  import opened Responses

  const TagRequired := "'tag' attribute is required."

  /**
   * The tag criteria of a search. Only the tag key is represented; the criteria's own
   * validation is supplied to IsValid as a function.
   */
  datatype SearchTagCriteria = SearchTagCriteria(key: string)

  class SearchQuery {
    /** The tag criteria; null until set. */
    var tag: Option<SearchTagCriteria>
    /** The document ids to apply the criteria to; null until set. */
    var documentIds: Option<seq<string>>

    /** A new query has neither field set. */
    constructor ()
      ensures tag == None && documentIds == None
    {
      tag := None;
      documentIds := None;
    }

    /** documentIds(): the stored ids. */
    method DocumentIds() returns (ids: Option<seq<string>>)
      ensures ids == documentIds
    {
      ids := documentIds;
    }

    /** documentsIds(ids): store the ids, keep the tag, return this query. */
    method DocumentsIds(ids: Option<seq<string>>) returns (q: SearchQuery)
      modifies this
      ensures documentIds == ids && tag == old(tag)
      ensures q == this
    {
      documentIds := ids;
      q := this;
    }

    /** tag(): the stored criteria. */
    method Tag() returns (t: Option<SearchTagCriteria>)
      ensures t == tag
    {
      t := tag;
    }

    /** tag(searchtag): store the criteria, keep the ids, return this query. */
    method SetTag(searchtag: Option<SearchTagCriteria>) returns (q: SearchQuery)
      modifies this
      ensures tag == searchtag && documentIds == old(documentIds)
      ensures q == this
    {
      tag := searchtag;
      q := this;
    }

    /**
     * isValid: without criteria it throws IllegalArgumentException; with criteria it
     * throws exactly what the criteria's own validation throws, and nothing more.
     */
    method IsValid(criteriaCheck: SearchTagCriteria -> Option<Failure>) returns (thrown: Option<Failure>)
      ensures tag.None? ==> thrown == Some(IllegalArgument(TagRequired))
      ensures tag.Some? ==> thrown == criteriaCheck(tag.value)
    {
      if tag.None? {
        thrown := Some(IllegalArgument(TagRequired));
        return;
      }
      thrown := criteriaCheck(tag.value);
    }
  }

  /**
   * A query built with the fluent setters validates as its criteria do, and a query
   * whose criteria were never set is rejected whatever its ids.
   */
  method BuildAndValidate(criteria: Option<SearchTagCriteria>, ids: Option<seq<string>>,
                          criteriaCheck: SearchTagCriteria -> Option<Failure>)
    returns (thrown: Option<Failure>)
    ensures criteria.None? ==> thrown == Some(IllegalArgument(TagRequired))
    ensures criteria.Some? ==> thrown == criteriaCheck(criteria.value)
  {
    var query := new SearchQuery();
    var q := query.SetTag(criteria);
    q := q.DocumentsIds(ids);
    thrown := q.IsValid(criteriaCheck);
  }

  /**
   * An instance of ErrorStatusTable and ClassifiedKeepsMessage, kept as documentation: the
   * validator's own failure is one the dispatcher answers with a 400 carrying its message.
   */
  lemma MissingTagIsBadRequest()
    ensures ErrorEnvelope(IllegalArgument(TagRequired)).statusCode == 400
    ensures ErrorEnvelope(IllegalArgument(TagRequired)).body == Some(MessageJson(TagRequired))
  {
  }
}
