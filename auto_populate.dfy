/** The global translation settings the query set and the loaddata command read, and
    the `auto_populate(mode)` context manager of modeltranslation/utils.py, which sets
    `AUTO_POPULATE` for the duration of a block and restores it afterwards. */
module AutoPopulate {
  import opened Common

  class Settings {
    /** `settings.AUTO_POPULATE`: False, True, 'all', 'default' or 'required'. */
    var autoPopulate: Py

    constructor(autoPopulate: Py)
      ensures this.autoPopulate == autoPopulate
    {
      this.autoPopulate := autoPopulate;
    }

    /** Entering `with auto_populate(mode):`. */
    method Enter(mode: Py) returns (saved: Py)
      modifies this
      ensures autoPopulate == mode && saved == old(autoPopulate)
    {
      saved := autoPopulate;
      autoPopulate := mode;
    }

    /** Leaving the block. */
    method Exit(saved: Py)
      modifies this
      ensures autoPopulate == saved
    {
      autoPopulate := saved;
    }
  }
}
