/**
 * The physicist filter bar (src/components/PhysicistFilters.tsx): a search
 * text, a timeline and a topic, each change reported to the parent as the
 * whole triple, and a reset to the initial triple.
 */
module PhysicistFilterBar {

  datatype Filters = Filters(search: string, timeline: string, topic: string)

  /** The initial triple, and the one a reset restores. */
  const Unfiltered := Filters("", "all", "")

  class PhysicistFilters {
    var search: string
    var timeline: string
    var topic: string
    var topicOpen: bool

    function Current(): Filters
      reads this
    {
      Filters(search, timeline, topic)
    }

    constructor ()
      ensures Current() == Unfiltered && !topicOpen
    {
      search := "";
      timeline := "all";
      topic := "";
      topicOpen := false;
    }

    method HandleSearchChange(value: string) returns (emitted: Filters)
      modifies this`search
      ensures Current() == old(Current()).(search := value)
      ensures emitted == Current()
    {
      search := value;
      emitted := Filters(value, timeline, topic);
    }

    method HandleTimelineChange(value: string) returns (emitted: Filters)
      modifies this`timeline
      ensures Current() == old(Current()).(timeline := value)
      ensures emitted == Current()
    {
      timeline := value;
      emitted := Filters(search, value, topic);
    }

    /** Picking a topic also closes the topic popover. */
    method HandleTopicChange(value: string) returns (emitted: Filters)
      modifies this`topic, this`topicOpen
      ensures Current() == old(Current()).(topic := value) && !topicOpen
      ensures emitted == Current()
    {
      topic := value;
      topicOpen := false;
      emitted := Filters(search, timeline, value);
    }

    /** The popover's `onOpenChange`. */
    method SetTopicOpen(open: bool)
      modifies this`topicOpen
      ensures topicOpen == open
    {
      topicOpen := open;
    }

    /** `resetFilters`: the popover is left as it is. */
    method ResetFilters() returns (emitted: Filters)
      modifies this`search, this`timeline, this`topic
      ensures Current() == Unfiltered && emitted == Unfiltered
    {
      search := "";
      timeline := "all";
      topic := "";
      emitted := Unfiltered;
    }
  }
}
