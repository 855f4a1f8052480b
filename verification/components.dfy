/**
 * The entities the platform registry holds. They are declared elsewhere in
 * the library; only the fields the composition logic reads are kept.
 */
module Components {
  import opened Wrappers

  /** Where a component comes from; `url` is None when no repository was given
      (a nil URL pointer). */
  datatype Repository = Repository(url: Option<string>, ref: string)

  /** A component, identified by its id. */
  datatype Component = Component(id: string, repository: Repository)

  /** The distribution of a platform: a component with a repository. */
  datatype Distribution = Distribution(id: string, repository: Repository)

  /** Cross-cutting defaults used when components are built; carried as-is. */
  datatype Base = Base(defaults: map<string, string>)
}
