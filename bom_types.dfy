// The BOM records shared by the importers, the exporters and the stores
// (src/types/bom.ts).

module BomTypes {
  import opened Common

  /** The columns of a BOM item row, without its id and timestamps. */
  datatype ItemData = ItemData(
    project_id: int,
    location_id: int,
    part_id: Option<int>,
    part_number: string,
    description: string,
    secondary_description: Option<string>,
    quantity: real,
    unit: string,
    unit_price: Option<real>,
    manufacturer: Option<string>,
    supplier: Option<string>,
    category: Option<string>,
    reference_designator: Option<string>,
    is_spare: int,
    sort_order: int)

  /** A stored BOM item: its id, its columns and its free-form `metadata` JSON text. */
  datatype BomItem = BomItem(id: int, data: ItemData, metadata: Option<string>)

  /** A BOM package (the `BOMProject` record): what the exports put in their header. */
  datatype Package = Package(
    id: int,
    project_number: string,
    package_name: string,
    name: Option<string>,
    description: Option<string>,
    version: string,
    metadata: Option<string>)

  /** A kitting location of a package; `project_id` is the package id. */
  datatype Location = Location(id: int, project_id: int, name: string, export_name: Option<string>, sort_order: int)

  /** The column index chosen for each importable field, if any. */
  datatype ColumnMapping = ColumnMapping(
    partNumber: Option<int>,
    description: Option<int>,
    secondaryDescription: Option<int>,
    manufacturer: Option<int>,
    quantity: Option<int>,
    unit: Option<int>,
    unitPrice: Option<int>,
    category: Option<int>,
    supplier: Option<int>,
    referenceDesignator: Option<int>)

  const NoMapping := ColumnMapping(None, None, None, None, None, None, None, None, None, None)
}
