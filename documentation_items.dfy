/**
 * The Maven plugin's documentation item: a mutable holder of a name and a
 * list of formats, filled in by chained setters. A Java `null` argument is
 * `None` here.
 */
module DocumentationItems {
  import opened Wrappers
  import opened Failures
  import opened Configurations

  class DocumentationItem {
    /** The item's name; None until a name is set. */
    var name: Option<string>
    /** The item's formats, in order. */
    var formats: seq<DocumentationFormat>

    /** A fresh item has no name and no formats. */
    constructor ()
      ensures name.None? && formats == []
    {
      name := None;
      formats := [];
    }

    /** `getName`: the last name set, None when none was. */
    function GetName(): Option<string>
      reads this
    {
      name
    }

    /** `getFormats`: the last list of formats set, or the empty list. */
    function GetFormats(): seq<DocumentationFormat>
      reads this
    {
      formats
    }

    /**
     * `setName`: a missing name is rejected and changes nothing; otherwise
     * the name is stored, the formats are untouched and the item itself is
     * returned for chaining.
     */
    method SetName(newName: Option<string>) returns (r: Result<DocumentationItem, Failure>)
      modifies this
      ensures newName.None? ==> r == Failure(NullArgument("name")) && name == old(name)
      ensures newName.Some? ==> r == Success(this) && name == newName
      ensures formats == old(formats)
    {
      if newName.None? {
        return Failure(NullArgument("name"));
      }
      name := newName;
      return Success(this);
    }

    /**
     * `setFormats`: a missing list is rejected and changes nothing; otherwise
     * the list is stored, the name is untouched and the item itself is
     * returned for chaining.
     */
    method SetFormats(newFormats: Option<seq<DocumentationFormat>>) returns (r: Result<DocumentationItem, Failure>)
      modifies this
      ensures newFormats.None? ==> r == Failure(NullArgument("formats")) && formats == old(formats)
      ensures newFormats.Some? ==> r == Success(this) && formats == newFormats.value
      ensures name == old(name)
    {
      if newFormats.None? {
        return Failure(NullArgument("formats"));
      }
      formats := newFormats.value;
      return Success(this);
    }
  }

  /**
   * Setting a name and formats on a fresh item, in either order, leaves both
   * readable through the getters.
   */
  method FillItem(itemName: string, itemFormats: seq<DocumentationFormat>, nameFirst: bool) returns (item: DocumentationItem)
    ensures fresh(item)
    ensures item.GetName() == Some(itemName) && item.GetFormats() == itemFormats
  {
    item := new DocumentationItem();
    if nameFirst {
      var named := item.SetName(Some(itemName));
      var formatted := item.SetFormats(Some(itemFormats));
    } else {
      var formatted := item.SetFormats(Some(itemFormats));
      var named := item.SetName(Some(itemName));
    }
  }
}
