/**
 * What the assistant knows about its user (user/user_context.py): free-form
 * context items and descriptive statements, each kind numbered by its own
 * class-wide counter, kept in lists in the order they were added.
 */
module UserContexts {
  import opened Strings
  import opened Counters

  datatype ContextItem = ContextItem(id: nat, content: string)

  /** A statement about the user with the model's confidence in it. */
  datatype DescriptiveStatement = DescriptiveStatement(id: nat, content: string, confidence: real)

  /** The contents of the items, in order, without their ids. */
  function Contents(items: seq<ContextItem>): (r: seq<string>)
    ensures |r| == |items| && forall i :: 0 <= i < |items| ==> r[i] == items[i].content
  {
    seq(|items|, i requires 0 <= i < |items| => items[i].content)
  }

  class UserContext {
    /** `ContextItem.NEXT_ID` */
    const itemIds: IdCounter
    /** `DescriptiveStatement.NEXT_ID` */
    const statementIds: IdCounter
    var contextItems: seq<ContextItem>
    var descriptiveStatements: seq<DescriptiveStatement>

    /** Ids increase along each list and stay below their counter. */
    ghost predicate Valid()
      reads this, itemIds, statementIds
    {
      && itemIds != statementIds && itemIds.next >= 1 && statementIds.next >= 1
      && (forall i, j :: 0 <= i < j < |contextItems| ==> contextItems[i].id < contextItems[j].id)
      && (forall i :: 0 <= i < |contextItems| ==> 1 <= contextItems[i].id < itemIds.next)
      && (forall i, j :: 0 <= i < j < |descriptiveStatements| ==> descriptiveStatements[i].id < descriptiveStatements[j].id)
      && (forall i :: 0 <= i < |descriptiveStatements| ==> 1 <= descriptiveStatements[i].id < statementIds.next)
    }

    constructor (itemIds: IdCounter, statementIds: IdCounter)
      requires itemIds != statementIds && itemIds.next >= 1 && statementIds.next >= 1
      ensures this.itemIds == itemIds && this.statementIds == statementIds
      ensures contextItems == [] && descriptiveStatements == [] && Valid()
    {
      this.itemIds := itemIds;
      this.statementIds := statementIds;
      contextItems := [];
      descriptiveStatements := [];
    }

    /** `add_context`: one item, with the next item id, at the end. */
    method AddContext(content: string)
      requires Valid()
      modifies this, itemIds
      ensures Valid()
      ensures contextItems == old(contextItems) + [ContextItem(old(itemIds.next), content)]
      ensures itemIds.next == old(itemIds.next) + 1 && descriptiveStatements == old(descriptiveStatements)
      ensures statementIds.next == old(statementIds.next)
    {
      var id := itemIds.Take();
      contextItems := contextItems + [ContextItem(id, content)];
    }

    /** `add_descriptive_statement`: one statement, with the next statement
        id, at the end. */
    method AddDescriptiveStatement(content: string, confidence: real)
      requires Valid()
      modifies this, statementIds
      ensures Valid()
      ensures descriptiveStatements == old(descriptiveStatements) + [DescriptiveStatement(old(statementIds.next), content, confidence)]
      ensures statementIds.next == old(statementIds.next) + 1 && contextItems == old(contextItems)
      ensures itemIds.next == old(itemIds.next)
    {
      var id := statementIds.Take();
      descriptiveStatements := descriptiveStatements + [DescriptiveStatement(id, content, confidence)];
    }

    /** `get_context`: the contents joined by line breaks. */
    function GetContext(): (r: string)
      reads this
      ensures contextItems == [] ==> r == ""
    {
      Join("\n", Contents(contextItems))
    }
  }

  /** When no content holds a line break, the joined context splits back into
      the contents of the items. */
  lemma GetContextSplit(items: seq<ContextItem>)
    requires |items| >= 1 && forall i :: 0 <= i < |items| ==> '\n' !in items[i].content
    ensures Split(Join("\n", Contents(items)), '\n') == Contents(items)
  {
    SplitJoin(Contents(items), '\n');
  }
}
