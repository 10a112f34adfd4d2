/** A colour class: a (color, shade) pair and the RGB box it selects, with the
    two membership tests the class offers. */
module ColorClasses {
  import opened Boxes

  datatype Option<T> = None | Some(value: T)

  /** `NotImplementedError`, with its message when the source gives one. */
  datatype Error = NotImplementedError(message: Option<string>)

  datatype Result<T> = Ok(value: T) | Err(error: Error)

  /** The state `__init__` leaves behind. No method changes it afterwards. */
  datatype ColorClass = ColorClass(color: string, shade: string, space: Box)

  const KnownColors: set<string> := {"blue", "red", "green", "dark"}
  const KnownShades: set<string> := {"light", "dark"}

  const ShadeMessage: string := "shade is either 'light' or 'dark'"
  const ColorMessage: string := "color is 'red', 'blue' or 'green'"

  /** The one category with a special sampling rule. */
  predicate IsRedLight(c: ColorClass) {
    c.color == "red" && c.shade == "light"
  }

  /** `Color(color, shade)`: the chained string tests of the constructor. */
  function NewColor(color: string, shade: string): (r: Result<ColorClass>)
    ensures r.Ok? <==> color in KnownColors && shade in KnownShades
    ensures r.Ok? ==> r.value.color == color && r.value.shade == shade && WellFormed(r.value.space)
    ensures color !in KnownColors ==> r == Err(NotImplementedError(Some(ColorMessage)))
    ensures color in {"blue", "red"} && shade !in KnownShades ==> r == Err(NotImplementedError(Some(ShadeMessage)))
    ensures color in {"green", "dark"} && shade !in KnownShades ==> r == Err(NotImplementedError(None))
  {
    if color == "blue" then
      if shade == "light" then
        Ok(ColorClass(color, shade, Box([0.3, 0.7, 0.9], [0.5, 0.8, 1.0])))
      else if shade == "dark" then
        Ok(ColorClass(color, shade, Box([0.0, 0.0, 0.8], [0.2, 0.2, 0.9])))
      else
        Err(NotImplementedError(Some(ShadeMessage)))
    else if color == "red" then
      if shade == "light" then
        Ok(ColorClass(color, shade, Box([0.9, 0.4, 0.35], [1.0, 0.6, 0.65])))
      else if shade == "dark" then
        Ok(ColorClass(color, shade, Box([0.5, 0.0, 0.0], [0.7, 0.1, 0.1])))
      else
        Err(NotImplementedError(Some(ShadeMessage)))
    else if color == "green" then
      if shade == "light" then
        Ok(ColorClass(color, shade, Box([0.4, 0.8, 0.4], [0.6, 1.0, 0.5])))
      else if shade == "dark" then
        Ok(ColorClass(color, shade, Box([0.0, 0.4, 0.0], [0.1, 0.6, 0.1])))
      else
        Err(NotImplementedError(None))
    else if color == "dark" then
      if shade == "dark" then
        Ok(ColorClass(color, shade, Box([0.0, 0.0, 0.0], [0.3, 0.3, 0.3])))
      else if shade == "light" then
        Ok(ColorClass(color, shade, Box([1.0, 1.0, 1.0], [2.0, 2.0, 2.0])))
      else
        Err(NotImplementedError(None))
    else
      Err(NotImplementedError(Some(ColorMessage)))
  }

  /** The eight categories as one lookup table keyed by the pair. */
  const Table: map<(string, string), Box> := map[
    ("blue", "light") := Box([0.3, 0.7, 0.9], [0.5, 0.8, 1.0]),
    ("blue", "dark") := Box([0.0, 0.0, 0.8], [0.2, 0.2, 0.9]),
    ("red", "light") := Box([0.9, 0.4, 0.35], [1.0, 0.6, 0.65]),
    ("red", "dark") := Box([0.5, 0.0, 0.0], [0.7, 0.1, 0.1]),
    ("green", "light") := Box([0.4, 0.8, 0.4], [0.6, 1.0, 0.5]),
    ("green", "dark") := Box([0.0, 0.4, 0.0], [0.1, 0.6, 0.1]),
    ("dark", "dark") := Box([0.0, 0.0, 0.0], [0.3, 0.3, 0.3]),
    ("dark", "light") := Box([1.0, 1.0, 1.0], [2.0, 2.0, 2.0])
  ]

  /** The constructor's branches are exactly a lookup in the table: it
      succeeds on the tabled pairs and only on them, with the tabled box. */
  lemma NewColorIsTableLookup(color: string, shade: string)
    ensures NewColor(color, shade).Ok? <==> (color, shade) in Table
    ensures (color, shade) in Table ==> NewColor(color, shade) == Ok(ColorClass(color, shade, Table[(color, shade)]))
  {
    if color in KnownColors && shade in KnownShades {
      assert (color, shade) in Table;
    } else {
      assert (color, shade) !in Table;
    }
  }

  /** Every tabled box has a non-empty half-open interval in each channel,
      so it admits draws, and thus also `low[i] <= high[i]`. */
  lemma TableBoxesNonEmpty()
    ensures forall k :: k in Table ==> forall i :: 0 <= i < 3 ==> Table[k].low[i] < Table[k].high[i]
  {
    forall k | k in Table
      ensures forall i :: 0 <= i < 3 ==> Table[k].low[i] < Table[k].high[i]
    {
      NewColorIsTableLookup(k.0, k.1);
    }
  }

  /** The objects `Color(...)` can produce. */
  predicate Constructed(c: ColorClass) {
    NewColor(c.color, c.shade) == Ok(c)
  }

  /** `contains`: `np.all((rgb >= low) & (rgb < high))`, which is the
      half-open box test, low inclusive and high exclusive. */
  function Contains(c: ColorClass, rgb: Rgb): (r: bool)
    ensures r <==> forall i :: 0 <= i < 3 ==> c.space.low[i] <= rgb[i] < c.space.high[i]
  {
    var flags := seq(3, i requires 0 <= i < 3 => rgb[i] >= c.space.low[i] && rgb[i] < c.space.high[i]);
    assert forall i :: 0 <= i < 3 ==> (flags[i] <==> c.space.low[i] <= rgb[i] < c.space.high[i]);
    AllOf(flags)
  }

  /** `contains_old`: the box's own membership test, which belongs to a
      library the model does not include and is therefore a parameter,
      narrowed for red/light by a one-sided bound on blue minus green. */
  function ContainsOld(c: ColorClass, spaceContains: Rgb -> bool, rgb: Rgb): (r: bool)
    ensures r ==> spaceContains(rgb)
    ensures !IsRedLight(c) ==> (r <==> spaceContains(rgb))
    ensures IsRedLight(c) ==> (r <==> spaceContains(rgb) && rgb[2] - rgb[1] <= 0.05)
  {
    var contains := spaceContains(rgb);
    if IsRedLight(c) then contains && rgb[2] - rgb[1] <= 0.05 else contains
  }

  /** With the half-open test as the box test, `contains_old` agrees with
      `contains` outside red/light, and inside red/light accepts exactly the
      contained points whose blue exceeds green by at most 0.05. */
  lemma ContainsOldOverHalfOpen(c: ColorClass, rgb: Rgb)
    ensures !IsRedLight(c) ==> (ContainsOld(c, (x: Rgb) => Contains(c, x), rgb) <==> InHalfOpen(c.space, rgb))
    ensures IsRedLight(c) ==>
      (ContainsOld(c, (x: Rgb) => Contains(c, x), rgb) <==> InHalfOpen(c.space, rgb) && rgb[2] - rgb[1] <= 0.05)
  {
  }

  /** The red/light clause of `contains_old` bounds blue minus green only
      from above: it accepts a point whose blue is 0.23 below its green. */
  lemma ContainsOldIsOneSided()
    ensures var c := NewColor("red", "light").value;
      var rgb: Rgb := [0.95, 0.59, 0.36];
      ContainsOld(c, (x: Rgb) => Contains(c, x), rgb) && rgb[2] - rgb[1] < -0.05
  {
  }
}
