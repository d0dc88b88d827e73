/** The plan record handed to the renderer: a plot, its setbacks, the rooms and
    an optional title. Every key whose presence the validator checks is an
    `Option`; the plot's width and height are read without a presence check,
    so they are plain numbers here. Lengths are metres. */
module Plans {
  import opened Results

  /** Outer lot dimensions. */
  datatype Plot = Plot(w: real, h: real)

  /** Clearances from each plot edge; `None` when the key is absent or bound to nothing. */
  datatype Setbacks = Setbacks(left: Option<real>, right: Option<real>, front: Option<real>, back: Option<real>)

  /** A room as it arrives: each of the five fields may be missing. */
  datatype Room = Room(name: Option<string>, x: Option<real>, y: Option<real>, w: Option<real>, h: Option<real>)

  /** Optional plan metadata. */
  datatype Meta = Meta(title: Option<string>)

  /** A whole plan; `None` marks a missing top-level key. */
  datatype Plan = Plan(plot: Option<Plot>, setbacks: Option<Setbacks>, rooms: Option<seq<Room>>, meta: Option<Meta>)

  /** Title used when the plan carries none. */
  const DefaultTitle: string := "Floor Plan"

  /** The plan's title, falling back to the default when `meta` or its title is absent. */
  function Title(p: Plan): string
  {
    match p.meta
    case Some(Meta(Some(t))) => t
    case _ => DefaultTitle
  }
}
