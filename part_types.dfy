// The parts catalogue records (src/types/parts.ts).

module PartTypes {
  import opened Common

  datatype Manufacturer = Manufacturer(id: int, name: string, code: Option<string>)

  datatype Category = Category(id: int, name: string, parent_id: Option<int>)

  datatype Part = Part(
    id: int, part_number: string, manufacturer_id: int, description: string,
    secondary_description: Option<string>, category_id: Option<int>, unit: string)

  /** A part joined with its manufacturer's and category's names. */
  datatype PartWithManufacturer = PartWithManufacturer(
    part: Part, manufacturer_name: Option<string>, manufacturer_code: Option<string>,
    category_name: Option<string>)
}
